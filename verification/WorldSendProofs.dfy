/** Framing, sending and dropping a message keep the invariant. */
module WorldSendProofs {
  import opened Wrappers
  import opened ConnectionState
  import opened World
  import opened WorldInvariant
  import opened WorldConnProofs

  // Message m is in somebody's hands and has not been given to the pool.
  ghost predicate Unplaced(w: World, m: MId) {
    && m in w.pool.owner && m in w.pool.header && w.pool.header[m].framed == 0
    && Places(w.pool.autoSend, w.pool.addQueue, w.pool.writes)[m] == 0
    && (m in w.pool.held || m in InHand(w.pc))
    && (w.pc.Delegating? ==> w.pc.hand != Unsent(m))
  }

  lemma UnplacedHeader(w: World, m: MId)
    requires Inv(w) && Unplaced(w, m)
    ensures w.pool.header[m] == Header(8, 0)
    ensures w.pool.owner[m].c in w.conns && w.pool.owner[m].p in w.protos
    ensures w.protos[w.pool.owner[m].p].deletions == 0
    ensures m !in w.pool.autoSend && m !in w.pool.addQueue && m !in w.pool.writes
  {
    assert HeaderOk(w.pool.header[m]);
    assert Places(w.pool.autoSend, w.pool.addQueue, w.pool.writes)[m]
        == multiset(w.pool.autoSend)[m] + multiset(w.pool.addQueue)[m] + multiset(w.pool.writes)[m];
    hide Objects, PoolOk, Obligations, Order;
    assert multiset(w.pool.autoSend)[m] == 0;
    assert multiset(w.pool.addQueue)[m] == 0;
    assert multiset(w.pool.writes)[m] == 0;
  }

  // The three headers fit exactly: 8 bytes of room become none, and nothing is refused.
  lemma FrameFits(w: World, m: MId)
    requires Known(w) && m in w.pool.header && w.pool.header[m] == Header(8, 0)
    ensures Frame(w, m) == w.(pool := w.pool.(header := w.pool.header[m := Header(0, 1)]))
  {
    hide Known;
    var w1 := SetHeader(w, m, Header(8, 1));
    var w2 := Grow(w1, m, 2);
    assert w2.pool.header[m] == Header(6, 1);
    var w3 := Grow(w2, m, 4);
    assert w3.pool.header[m] == Header(2, 1);
    var w4 := Grow(w3, m, 2);
    assert w4.pool.header == w.pool.header[m := Header(0, 1)];
  }

  lemma FramedPool(w: World, m: MId)
    requires Known(w) && PoolOk(w) && m in w.pool.owner && m in w.pool.header
    requires m !in w.pool.autoSend && m !in w.pool.addQueue
    requires w.pc.Delegating? ==> w.pc.hand != Unsent(m)
    ensures PoolOk(SetHeader(w, m, Header(0, 1)))
  {
  }

  lemma HeaderRest(w: World, m: MId, h: Header)
    requires Known(w) && m in w.pool.header && Objects(w) && Obligations(w) && Order(w)
    ensures Objects(SetHeader(w, m, h)) && Obligations(SetHeader(w, m, h)) && Order(SetHeader(w, m, h))
  {
    hide Known;
  }

  // A message framed while nothing in the pool refers to it.
  lemma FrameKeeps(w: World, m: MId)
    requires Inv(w) && Unplaced(w, m)
    ensures Inv(Frame(w, m))
    ensures Frame(w, m) == SetHeader(w, m, Header(0, 1))
  {
    hide Known, Objects, PoolOk, Obligations, Order;
    UnplacedHeader(w, m);
    FrameFits(w, m);
    FramedPool(w, m);
    HeaderRest(w, m, Header(0, 1));
  }

  // One more place for a message that had none.
  lemma MorePlaces(a: seq<MId>, q: seq<MId>, writes: set<MId>, m: MId)
    requires OnePlace(a, q, writes) && Places(a, q, writes)[m] == 0
    ensures OnePlace(a, q + [m], writes) && OnePlace(a, q, writes + {m})
    ensures Places(a, q + [m], writes) == Places(a, q, writes) + multiset{m}
    ensures Places(a, q, writes + {m}) == Places(a, q, writes) + multiset{m}
  {
    assert Places(a, q + [m], writes) == Places(a, q, writes) + multiset{m};
    assert multiset(writes)[m] == 0;
    assert m !in writes;
    assert multiset(writes + {m}) == multiset(writes) + multiset{m};
    assert Places(a, q, writes + {m}) == Places(a, q, writes) + multiset{m};
  }

  // m_pendingWrite may go from 0 to 1: no write of that connection is outstanding.
  lemma CountWritePool(w: World, c: CId, d: Conn)
    requires Known(w) && PoolOk(w) && c in w.conns && d.protocol == w.conns[c].protocol
    requires w.conns[c].state == Open && w.conns[c].pendingWrite == 0
    ensures PoolOk(Set(w, c, d))
    ensures forall n :: n in w.pool.writes && n in w.pool.owner ==> w.pool.owner[n].c != c
  {
  }

  lemma WritingParts(w: World, m: MId)
    requires Known(w) && PoolOk(w) && m in w.pool.owner && m in w.pool.header && w.pool.header[m].framed == 1
    requires w.pool.owner[m].c in w.conns && w.conns[w.pool.owner[m].c].pendingWrite == 1
    requires forall n :: n in w.pool.writes && n in w.pool.owner ==> w.pool.owner[n].c != w.pool.owner[m].c
    ensures Partition(Writing(w, m).pool) && Headers(Writing(w, m).pool)
    ensures Writes(w.conns, w.pool.owner, w.pool.writes + {m})
  {
    hide Known, PcOk, OnePlace;
  }

  lemma WritingPool(w: World, m: MId)
    requires Known(w) && PoolOk(w) && m in w.pool.owner && m in w.pool.header && w.pool.header[m].framed == 1
    requires Places(w.pool.autoSend, w.pool.addQueue, w.pool.writes)[m] == 0
    requires w.pool.owner[m].c in w.conns && w.conns[w.pool.owner[m].c].pendingWrite == 1
    requires forall n :: n in w.pool.writes && n in w.pool.owner ==> w.pool.owner[n].c != w.pool.owner[m].c
    requires w.pc.Delegating? ==> w.pc.hand != Unsent(m)
    ensures PoolOk(Writing(w, m))
  {
    WritingParts(w, m);
    MorePlaces(w.pool.autoSend, w.pool.addQueue, w.pool.writes, m);
    hide Known, Writes, OnePlace, Partition, Headers, Places;
  }

  // Which places refer to a held message matters to no callback.
  lemma SameReferences(w: World, w': World)
    requires Obligations(w)
    requires w'.tasks == w.tasks && w'.events == w.events && w'.protos == w.protos && w'.conns == w.conns
    requires w'.pc == w.pc && w'.pool.owner == w.pool.owner
    requires forall m :: m in w.pool.owner ==>
      (Referenced(w.pool, InHand(w.pc), m) <==> Referenced(w'.pool, InHand(w.pc), m))
    ensures Obligations(w')
  {
  }

  lemma StartWriteKeeps(w: World, m: MId, threw: bool)
    requires Inv(w) && m in w.pool.owner && m in w.pool.header && w.pool.header[m] == Header(0, 1)
    requires w.pool.owner[m].c in w.conns
    requires Places(w.pool.autoSend, w.pool.addQueue, w.pool.writes)[m] == 0
    requires w.conns[w.pool.owner[m].c].state == Open && w.conns[w.pool.owner[m].c].pendingWrite == 0
    requires m in w.pool.held || m in InHand(w.pc)
    requires w.pc.Delegating? ==> w.pc.hand != Unsent(m)
    ensures Inv(StartWrite(w, m, threw))
  {
    hide Known, Objects, PoolOk, Obligations, Order;
    ConnOf(w, w.pool.owner[m].c);
    var c := w.pool.owner[m].c;
    var d := w.conns[c].(pendingWrite := w.conns[c].pendingWrite + 1);
    SetObjects(w, c, d);
    CountWritePool(w, c, d);
    SetObligations(w, c, d);
    SetOrder(w, c, d);
    var w1 := Set(w, c, d);
    if !threw {
      var w2 := Writing(w1, m);
      WritingPool(w1, m);
      SameReferences(w1, w2);
      PoolOnly(w1, w2);
    }
  }

  // Objects and Order do not depend on where messages are.
  lemma PoolOnly(w: World, w': World)
    requires Objects(w) && Order(w)
    requires w' == w.(pool := w'.pool) && w'.pool.owner == w.pool.owner
    ensures Objects(w') && Order(w')
  {
  }

  lemma EnqueuePool(w: World, m: MId)
    requires Known(w) && PoolOk(w) && Unplaced(w, m)
    ensures PoolOk(Enqueue(w, m))
  {
    hide Known, Places, OnePlace, Writes;
    MorePlaces(w.pool.autoSend, w.pool.addQueue, w.pool.writes, m);
  }

  lemma EnqueueKeeps(w: World, m: MId)
    requires Inv(w) && Unplaced(w, m)
    ensures Inv(Enqueue(w, m))
  {
    hide Known, Objects, PoolOk, Obligations, Order;
    var w' := Enqueue(w, m);
    EnqueuePool(w, m);
    SameReferences(w, w');
    PoolOnly(w, w');
  }

  // Connection::send() of a message that has not been handed over before. The message ends up
  // framed once, or waiting unframed in m_addQueue.
  lemma SendKeeps(w: World, m: MId, threw: bool, forceSlow: bool)
    requires Inv(w) && Unplaced(w, m)
    ensures Inv(Send(w, m, threw, forceSlow))
    ensures Send(w, m, threw, forceSlow).pool.held == w.pool.held
    ensures Send(w, m, threw, forceSlow).pc == w.pc
  {
    hide Known, Objects, PoolOk, Obligations, Order;
    UnplacedHeader(w, m);
    var c, p := w.pool.owner[m].c, w.pool.owner[m].p;
    ConnOf(w, c);
    match SendChoice(w.conns[c], forceSlow) {
      case Refused => FrameKeeps(w, m);
      case WriteNow =>
        FrameKeeps(w, m);
        StartWriteKeeps(Frame(w, m), m, threw);
      case ForceClose => assert false;
      case Queue => EnqueueKeeps(w, m);
    }
  }

  // ----- the last reference goes away -----

  lemma ReleaseToken(tokens: multiset<Task>, pool: Pool, hand: set<MId>, pool': Pool, hand': set<MId>, m: MId)
    requires ReleaseTokens(tokens, pool, hand) && m in pool.owner && Referenced(pool, hand, m)
    requires pool'.owner == pool.owner
    requires forall n :: n in pool.owner && n != m ==> (Referenced(pool, hand, n) <==> Referenced(pool', hand', n))
    ensures Referenced(pool', hand', m) ==> ReleaseTokens(tokens, pool', hand')
    ensures !Referenced(pool', hand', m) ==> ReleaseTokens(tokens + multiset{InternalRelease(m)}, pool', hand')
  {
  }

  lemma OtherTokens(tokens: multiset<Task>, conns: map<CId, Conn>, protos: map<PId, Proto>, m: MId)
    requires CloseTokens(tokens, conns) && ConnTokens(tokens, conns) && ProtoTokens(tokens, protos)
    ensures CloseTokens(tokens + multiset{InternalRelease(m)}, conns)
    ensures ConnTokens(tokens + multiset{InternalRelease(m)}, conns)
    ensures ProtoTokens(tokens + multiset{InternalRelease(m)}, protos)
  {
  }

  // Only message m lost a reference, and nothing was queued for it yet.
  lemma LetGoObligations(w: World, w': World, m: MId)
    requires Known(w) && Obligations(w) && Known(w') && m in w.pool.owner && m in w'.pool.header
    requires Referenced(w.pool, InHand(w.pc), m)
    requires w'.tasks == w.tasks && w'.events == w.events && w'.protos == w.protos && w'.conns == w.conns
    requires (!w.pc.Running? && !w'.pc.Running?) || w.pc == w'.pc
    requires w'.pool.owner == w.pool.owner
    requires forall n :: n in w.pool.owner && n != m ==>
      (Referenced(w.pool, InHand(w.pc), n) <==> Referenced(w'.pool, InHand(w'.pc), n))
    ensures Obligations(LetGo(w', m))
  {
    hide Known, Referenced;
    var tokens := Tokens(w.tasks, w.pc, w.events);
    OtherTokens(tokens, w.conns, w.protos, m);
    hide CloseTokens, ConnTokens, ProtoTokens;
    assert Tokens([InternalRelease(m)] + w.tasks, w'.pc, w.events) == tokens + multiset{InternalRelease(m)};
    assert Tokens(w'.tasks, w'.pc, w'.events) == tokens;
    hide Tokens;
    ReleaseToken(tokens, w.pool, InHand(w.pc), w'.pool, InHand(w'.pc), m);
    hide ReleaseTokens;
  }

  // A release callback may stand anywhere in the line.
  lemma Inserted(a: seq<Task>, b: seq<Task>, protos: map<PId, Proto>, t: Task)
    requires Delegates(a + b, protos) && !t.Delegate? && !t.CloseConnection?
    ensures Delegates(a + [t] + b, protos)
  {
    var s, r := a + b, a + [t] + b;
    forall j | 0 <= j < |r| && r[j].Delegate? ensures Attached(protos, r[j].p) {
      assert r[j] == s[if j < |a| then j else j - 1];
    }
    forall i, j | 0 <= i < j < |r| && r[i].CloseConnection? && r[j].Delegate? && r[j].p in protos
      ensures protos[r[j].p].connection != Some(r[i].c)
    {
      assert r[i] == s[if i < |a| then i else i - 1] && r[j] == s[if j < |a| then j else j - 1];
    }
  }

  lemma FrontTask(tasks: seq<Task>, pc: Pc, protos: map<PId, Proto>, t: Task)
    requires Delegates(Line(tasks, pc), protos) && !t.Delegate? && !t.CloseConnection?
    ensures Delegates(Line([t] + tasks, pc), protos)
  {
    hide Delegates;
    var a := if pc.Running? then [pc.task] else [];
    Inserted(a, tasks, protos, t);
    assert Line([t] + tasks, pc) == a + [t] + tasks;
  }

  lemma LetGoRest(w: World, m: MId)
    requires Known(w) && m in w.pool.header && Objects(w) && PoolOk(w) && Order(w)
    ensures Objects(LetGo(w, m)) && PoolOk(LetGo(w, m)) && Order(LetGo(w, m))
  {
    FrontTask(w.tasks, w.pc, w.protos, InternalRelease(m));
    hide Known, Delegates;
  }

  lemma OwnedHeader(w: World, m: MId)
    requires Known(w) && m in w.pool.owner
    ensures m in w.pool.header && w.pool.owner[m].c in w.conns && w.pool.owner[m].p in w.protos
  {
  }

  lemma HeldOnlyPool(w: World, w': World)
    requires PoolOk(w) && w' == w.(pool := w.pool.(held := w'.pool.held))
    ensures PoolOk(w')
  {
  }

  lemma DropKeeps(w: World, m: MId)
    requires Inv(w) && m in w.pool.owner && m in w.pool.held
    ensures Inv(Drop(w, m))
    ensures Drop(w, m).pool.held == w.pool.held - {m} && Drop(w, m).pc == w.pc
  {
    hide Known, Objects, PoolOk, Obligations, Order;
    OwnedHeader(w, m);
    var w1 := Unhold(w, m);
    HeldOnlyPool(w, w1);
    PoolOnly(w, w1);
    LetGoObligations(w, w1, m);
    LetGoRest(w1, m);
  }
}
