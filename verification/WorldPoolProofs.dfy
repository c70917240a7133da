/** Allocating, releasing and moving messages keep the invariant. */
module WorldPoolProofs {
  import opened Wrappers
  import opened ConnectionState
  import opened World
  import opened WorldSteps
  import opened WorldInvariant
  import opened WorldConnProofs
  import opened WorldSendProofs
  import opened WorldTaskProofs

  // ----- reference counts -----

  lemma RefAdded(owner: map<MId, Owner>, m: MId, o: Owner)
    requires m !in owner
    ensures forall p :: ProtoRefs(owner[m := o], p) == ProtoRefs(owner, p) + if p == o.p then {m} else {}
    ensures forall c :: ConnRefs(owner[m := o], c) == ConnRefs(owner, c) + if c == o.c then {m} else {}
  {
  }

  lemma ProtoCountsUp(protos: map<PId, Proto>, owner: map<MId, Owner>, m: MId, o: Owner)
    requires ProtoCounts(protos, owner) && m !in owner && o.p in protos
    ensures ProtoCounts(protos[o.p := protos[o.p].(refCount := protos[o.p].refCount + 1)], owner[m := o])
  {
    RefAdded(owner, m, o);
    assert m !in ProtoRefs(owner, o.p);
    hide ProtoRefs, ConnRefs;
  }

  lemma ConnCountsUp(conns: map<CId, Conn>, owner: map<MId, Owner>, m: MId, o: Owner)
    requires ConnCounts(conns, owner) && m !in owner && o.c in conns
    ensures ConnCounts(conns[o.c := conns[o.c].(refCount := conns[o.c].refCount + 1)], owner[m := o])
  {
    RefAdded(owner, m, o);
    assert m !in ConnRefs(owner, o.c);
    hide ProtoRefs, ConnRefs;
  }

  lemma CountsUp(conns: map<CId, Conn>, protos: map<PId, Proto>, owner: map<MId, Owner>, m: MId, o: Owner)
    requires ProtoCounts(protos, owner) && ConnCounts(conns, owner) && m !in owner && o.p in protos && o.c in conns
    ensures ProtoCounts(protos[o.p := protos[o.p].(refCount := protos[o.p].refCount + 1)], owner[m := o])
    ensures ConnCounts(conns[o.c := conns[o.c].(refCount := conns[o.c].refCount + 1)], owner[m := o])
  {
    hide ProtoCounts, ConnCounts;
    ProtoCountsUp(protos, owner, m, o);
    ConnCountsUp(conns, owner, m, o);
  }

  lemma ProtoCountsDown(protos: map<PId, Proto>, owner: map<MId, Owner>, m: MId)
    requires ProtoCounts(protos, owner) && m in owner && owner[m].p in protos
    ensures var p := owner[m].p;
      ProtoCounts(protos[p := protos[p].(refCount := protos[p].refCount - 1)], owner - {m})
  {
    var less := owner - {m};
    RefAdded(less, m, owner[m]);
    assert less[m := owner[m]] == owner;
    assert m !in ProtoRefs(less, owner[m].p);
    hide ProtoRefs, ConnRefs;
  }

  lemma ConnCountsDown(conns: map<CId, Conn>, owner: map<MId, Owner>, m: MId)
    requires ConnCounts(conns, owner) && m in owner && owner[m].c in conns
    ensures var c := owner[m].c;
      ConnCounts(conns[c := conns[c].(refCount := conns[c].refCount - 1)], owner - {m})
  {
    var less := owner - {m};
    RefAdded(less, m, owner[m]);
    assert less[m := owner[m]] == owner;
    assert m !in ConnRefs(less, owner[m].c);
    hide ProtoRefs, ConnRefs;
  }

  lemma CountsDown(conns: map<CId, Conn>, protos: map<PId, Proto>, owner: map<MId, Owner>, m: MId)
    requires ProtoCounts(protos, owner) && ConnCounts(conns, owner)
    requires m in owner && owner[m].p in protos && owner[m].c in conns
    ensures var o := owner[m];
      && ProtoCounts(protos[o.p := protos[o.p].(refCount := protos[o.p].refCount - 1)], owner - {m})
      && ConnCounts(conns[o.c := conns[o.c].(refCount := conns[o.c].refCount - 1)], owner - {m})
  {
    hide ProtoCounts, ConnCounts;
    ProtoCountsDown(protos, owner, m);
    ConnCountsDown(conns, owner, m);
  }

  // Reference counts change on both sides of a link.
  lemma CountLinks(conns: map<CId, Conn>, protos: map<PId, Proto>, c: CId, d: Conn, p: PId, q: Proto)
    requires Links(conns, protos) && c in conns && p in protos
    requires d.protocol == conns[c].protocol
    requires q.connection == protos[p].connection && q.deletions == protos[p].deletions
    ensures Links(conns[c := d], protos[p := q])
  {
  }

  lemma CountConn(conns: map<CId, Conn>, stops: multiset<CId>, manager: seq<CId>, c: CId, n: int)
    requires ConnsOk(conns) && Manager(conns, stops, manager) && c in conns
    ensures ConnsOk(conns[c := conns[c].(refCount := n)])
    ensures Manager(conns[c := conns[c].(refCount := n)], stops, manager)
  {
    assert ConnOk(conns[c]);
  }

  lemma CountAlive(conns: map<CId, Conn>, protos: map<PId, Proto>, owner: map<MId, Owner>,
                   p: PId, n: int, c: CId, k: int)
    requires OwnersAlive(conns, protos, owner) && p in protos && c in conns
    ensures OwnersAlive(conns[c := conns[c].(refCount := k)], protos[p := protos[p].(refCount := n)], owner)
  {
  }

  lemma MoreAlive(conns: map<CId, Conn>, protos: map<PId, Proto>, owner: map<MId, Owner>, m: MId, o: Owner)
    requires OwnersAlive(conns, protos, owner) && o.p in protos && o.c in conns
    requires protos[o.p].deletions == 0 && conns[o.c].stopPosts == 0
    ensures OwnersAlive(conns, protos, owner[m := o])
  {
  }

  lemma LessAlive(conns: map<CId, Conn>, protos: map<PId, Proto>, owner: map<MId, Owner>, m: MId)
    requires OwnersAlive(conns, protos, owner)
    ensures OwnersAlive(conns, protos, owner - {m})
  {
  }

  // ----- getOutputMessage -----

  lemma TakenIsFree(w: World, newMsg: MId)
    requires Known(w) && PoolOk(w) && NewMessage(w, newMsg)
    ensures Taken(w.pool, newMsg) !in w.pool.owner
    ensures !Referenced(w.pool, InHand(w.pc), Taken(w.pool, newMsg))
    ensures Places(w.pool.autoSend, w.pool.addQueue, w.pool.writes)[Taken(w.pool, newMsg)] == 0
  {
    hide KnownLinks, KnownTask, Headers, OnePlace, Writes, PcOk;
    var m := Taken(w.pool, newMsg);
    assert w.pool.free != [] ==> m in w.pool.free;
    assert m !in w.pool.owner;
    NowhereInPool(w.conns, w.protos, w.pool, m);
  }

  lemma NowhereInPool(conns: map<CId, Conn>, protos: map<PId, Proto>, pool: Pool, m: MId)
    requires KnownMessages(conns, protos, pool) && m !in pool.owner
    ensures !Referenced(pool, {}, m) && Places(pool.autoSend, pool.addQueue, pool.writes)[m] == 0
  {
    assert multiset(pool.autoSend)[m] == 0 && multiset(pool.addQueue)[m] == 0 && multiset(pool.writes)[m] == 0;
  }

  lemma AttachedAlive(w: World, p: PId)
    requires Objects(w) && p in w.protos && w.protos[p].connection.Some?
    ensures w.protos[p].connection.value in w.conns && w.protos[p].deletions == 0
    ensures w.conns[w.protos[p].connection.value].protocol == Some(p)
    ensures w.conns[w.protos[p].connection.value].stopPosts == 0
  {
    assert ConnOk(w.conns[w.protos[p].connection.value]);
  }

  lemma FreeKnown(w: World)
    requires Known(w)
    ensures forall m :: m in w.pool.free ==> m in w.pool.header
  {
  }

  lemma AllocObjects(w: World, p: PId, auto: bool, newMsg: MId)
    requires Known(w) && Objects(w) && p in w.protos && CanAlloc(w, p)
    requires Taken(w.pool, newMsg) !in w.pool.owner
    ensures Objects(Alloc(w, p, auto, newMsg))
    ensures w.protos[p].deletions == 0
  {
    hide Known, ConnsOk, Manager, Links, ProtoCounts, ConnCounts, OwnersAlive;
    AttachedAlive(w, p);
    FreeKnown(w);
    var c, m := w.protos[p].connection.value, Taken(w.pool, newMsg);
    var d := w.conns[c].(refCount := w.conns[c].refCount + 1);
    var q := w.protos[p].(refCount := w.protos[p].refCount + 1);
    CountsUp(w.conns, w.protos, w.pool.owner, m, Owner(p, c));
    CountLinks(w.conns, w.protos, c, d, p, q);
    CountConn(w.conns, w.stops, w.manager, c, d.refCount);
    MoreAlive(w.conns, w.protos, w.pool.owner, m, Owner(p, c));
    CountAlive(w.conns, w.protos, w.pool.owner[m := Owner(p, c)], p, q.refCount, c, d.refCount);
  }

  lemma AllocPartition(pool: Pool, p: PId, c: CId, auto: bool, newMsg: MId)
    requires Partition(pool) && newMsg !in pool.header
    requires forall m :: m in pool.free ==> m in pool.header
    ensures Partition(Allocated(pool, p, c, auto, newMsg))
  {
    var r := Allocated(pool, p, c, auto, newMsg);
    var m := Taken(pool, newMsg);
    if pool.free != [] {
      assert pool.free == r.free + [m];
      assert m !in r.free;
      forall x | x in pool.free && x != m ensures x in r.free {
      }
    }
  }

  lemma AllocHeaders(pool: Pool, p: PId, c: CId, auto: bool, newMsg: MId)
    requires Partition(pool) && Headers(pool) && newMsg !in pool.header
    requires forall m :: m in pool.free ==> m in pool.header
    requires Taken(pool, newMsg) !in pool.autoSend && Taken(pool, newMsg) !in pool.addQueue
    requires Taken(pool, newMsg) !in pool.writes
    ensures Headers(Allocated(pool, p, c, auto, newMsg))
    ensures Allocated(pool, p, c, auto, newMsg).header[Taken(pool, newMsg)] == Header(8, 0)
  {
  }

  lemma AllocPlaces(autoSend: seq<MId>, addQueue: seq<MId>, writes: set<MId>, m: MId)
    requires OnePlace(autoSend, addQueue, writes) && Places(autoSend, addQueue, writes)[m] == 0
    ensures OnePlace(autoSend + [m], addQueue, writes)
    ensures Places(autoSend + [m], addQueue, writes) == Places(autoSend, addQueue, writes) + multiset{m}
  {
    assert Places(autoSend + [m], addQueue, writes) == Places(autoSend, addQueue, writes) + multiset{m};
  }

  lemma AllocWrites(conns: map<CId, Conn>, owner: map<MId, Owner>, writes: set<MId>, m: MId, o: Owner, n: int)
    requires Writes(conns, owner, writes) && m !in writes && o.c in conns
    ensures Writes(conns[o.c := conns[o.c].(refCount := n)], owner[m := o], writes)
  {
  }

  lemma AllocPool(w: World, p: PId, auto: bool, newMsg: MId)
    requires Known(w) && PoolOk(w) && p in w.protos && CanAlloc(w, p) && NewMessage(w, newMsg)
    requires w.protos[p].connection.value in w.conns
    requires Taken(w.pool, newMsg) !in w.pool.owner && !Referenced(w.pool, InHand(w.pc), Taken(w.pool, newMsg))
    requires Places(w.pool.autoSend, w.pool.addQueue, w.pool.writes)[Taken(w.pool, newMsg)] == 0
    ensures PoolOk(Alloc(w, p, auto, newMsg))
    ensures var m := Taken(w.pool, newMsg);
      var pool := Alloc(w, p, auto, newMsg).pool;
      && m in pool.header && pool.header[m] == Header(8, 0)
      && Places(pool.autoSend, pool.addQueue, pool.writes)[m] == if auto then 1 else 0
  {
    hide Known, Partition, Headers, OnePlace, Writes, Places;
    FreeKnown(w);
    var c, m := w.protos[p].connection.value, Taken(w.pool, newMsg);
    AllocPartition(w.pool, p, c, auto, newMsg);
    AllocHeaders(w.pool, p, c, auto, newMsg);
    AllocPlaces(w.pool.autoSend, w.pool.addQueue, w.pool.writes, m);
    AllocWrites(w.conns, w.pool.owner, w.pool.writes, m, Owner(p, c), w.conns[c].refCount + 1);
  }

  lemma AllocRelease(tokens: multiset<Task>, pool: Pool, hand: set<MId>, p: PId, c: CId, auto: bool, newMsg: MId)
    requires ReleaseTokens(tokens, pool, hand) && Taken(pool, newMsg) !in pool.owner
    requires forall m :: m in pool.free ==> m in pool.header
    ensures ReleaseTokens(tokens, Allocated(pool, p, c, auto, newMsg), hand)
  {
    var r, m := Allocated(pool, p, c, auto, newMsg), Taken(pool, newMsg);
    forall x ensures tokens[InternalRelease(x)] == if x in r.owner && !Referenced(r, hand, x) then 1 else 0 {
      assert x != m ==> (Referenced(r, hand, x) <==> Referenced(pool, hand, x));
    }
  }

  // Only reference counts differ.
  lemma CountTokens(tokens: multiset<Task>, conns: map<CId, Conn>, protos: map<PId, Proto>,
                    c: CId, k: int, p: PId, n: int)
    requires CloseTokens(tokens, conns) && ConnTokens(tokens, conns) && ProtoTokens(tokens, protos)
    requires c in conns && p in protos
    ensures CloseTokens(tokens, conns[c := conns[c].(refCount := k)])
    ensures ConnTokens(tokens, conns[c := conns[c].(refCount := k)])
    ensures ProtoTokens(tokens, protos[p := protos[p].(refCount := n)])
  {
  }

  lemma AllocObligations(w: World, p: PId, auto: bool, newMsg: MId)
    requires Known(w) && Obligations(w) && p in w.protos && CanAlloc(w, p) && Taken(w.pool, newMsg) !in w.pool.owner
    requires w.protos[p].connection.value in w.conns
    ensures Obligations(Alloc(w, p, auto, newMsg))
  {
    hide Known, ReleaseTokens, CloseTokens, ConnTokens, ProtoTokens, Tokens, Allocated;
    FreeKnown(w);
    var c, m := w.protos[p].connection.value, Taken(w.pool, newMsg);
    var tokens := Tokens(w.tasks, w.pc, w.events);
    AllocRelease(tokens, w.pool, InHand(w.pc), p, c, auto, newMsg);
    CountTokens(tokens, w.conns, w.protos, c, w.conns[c].refCount + 1, p, w.protos[p].refCount + 1);
  }

  lemma CountOrder(line: seq<Task>, protos: map<PId, Proto>, p: PId, n: int)
    requires Delegates(line, protos) && p in protos
    ensures Delegates(line, protos[p := protos[p].(refCount := n)])
  {
  }

  lemma AllocOrder(w: World, p: PId, auto: bool, newMsg: MId)
    requires Known(w) && Order(w) && p in w.protos && CanAlloc(w, p)
    ensures Order(Alloc(w, p, auto, newMsg))
  {
    CountOrder(Line(w.tasks, w.pc), w.protos, p, w.protos[p].refCount + 1);
    hide Known, Delegates, Line, Events;
  }

  // A message from the free list, or a new one, with both pointers set and both counts raised.
  lemma AllocKeeps(w: World, p: PId, auto: bool, newMsg: MId)
    requires Inv(w) && p in w.protos && CanAlloc(w, p) && NewMessage(w, newMsg)
    ensures Inv(Alloc(w, p, auto, newMsg))
    ensures w.protos[p].deletions == 0
    ensures Taken(w.pool, newMsg) !in w.pool.held
    ensures var m := Taken(w.pool, newMsg);
      var pool := Alloc(w, p, auto, newMsg).pool;
      && m in pool.owner && m in pool.header && pool.header[m] == Header(8, 0) && pool.held == w.pool.held + {m}
      && Places(pool.autoSend, pool.addQueue, pool.writes)[m] == (if auto then 1 else 0)
      && m !in InHand(w.pc)
  {
    hide Known, Objects, PoolOk, Obligations, Order;
    TakenIsFree(w, newMsg);
    AllocObjects(w, p, auto, newMsg);
    AttachedAlive(w, p);
    AllocPool(w, p, auto, newMsg);
    AllocObligations(w, p, auto, newMsg);
    AllocOrder(w, p, auto, newMsg);
  }

  // ----- internalReleaseMessage -----

  lemma UnrefObjects(w: World, m: MId)
    requires Known(w) && Objects(w) && m in w.pool.owner && !Referenced(w.pool, InHand(w.pc), m)
    requires m in w.pool.header && w.pool.owner[m].p in w.protos && w.pool.owner[m].c in w.conns
    ensures Objects(Unown(Unref(w, w.pool.owner[m].p, w.pool.owner[m].c), m))
  {
    hide Known, ConnsOk, Manager, Links, ProtoCounts, ConnCounts, OwnersAlive;
    var p, c := w.pool.owner[m].p, w.pool.owner[m].c;
    var d := w.conns[c].(refCount := w.conns[c].refCount - 1);
    var q := w.protos[p].(refCount := w.protos[p].refCount - 1);
    CountsDown(w.conns, w.protos, w.pool.owner, m);
    CountLinks(w.conns, w.protos, c, d, p, q);
    CountConn(w.conns, w.stops, w.manager, c, d.refCount);
    LessAlive(w.conns, w.protos, w.pool.owner, m);
    CountAlive(w.conns, w.protos, w.pool.owner - {m}, p, q.refCount, c, d.refCount);
  }

  lemma ReleasedParts(pool: Pool, m: MId)
    requires Partition(pool) && Headers(pool) && m in pool.owner && m in pool.header
    requires m !in pool.autoSend && m !in pool.addQueue && m !in pool.writes
    ensures Partition(Released(pool, m)) && Headers(Released(pool, m))
  {
    var r := Released(pool, m);
    assert m !in pool.free;
    assert forall x :: x in r.free <==> x in pool.free || x == m;
  }

  lemma ReleasedWrites(conns: map<CId, Conn>, owner: map<MId, Owner>, writes: set<MId>, m: MId, c: CId, n: int)
    requires Writes(conns, owner, writes) && m !in writes && c in conns
    ensures Writes(conns[c := conns[c].(refCount := n)], owner - {m}, writes)
  {
  }

  lemma UnrefPool(w: World, m: MId)
    requires Known(w) && PoolOk(w) && m in w.pool.owner && !Referenced(w.pool, InHand(w.pc), m) && !w.pc.Delegating?
    requires m in w.pool.header && w.pool.owner[m].p in w.protos && w.pool.owner[m].c in w.conns
    ensures PoolOk(Unown(Unref(w, w.pool.owner[m].p, w.pool.owner[m].c), m))
  {
    var c := w.pool.owner[m].c;
    ReleasedParts(w.pool, m);
    ReleasedWrites(w.conns, w.pool.owner, w.pool.writes, m, c, w.conns[c].refCount - 1);
    hide Known, Partition, Headers, OnePlace, Writes, Places;
  }

  lemma ReleasedToken(tokens: multiset<Task>, pool: Pool, m: MId)
    requires ReleaseTokens(tokens + multiset{InternalRelease(m)}, pool, {}) && m in pool.header
    ensures m in pool.owner && !Referenced(pool, {}, m) && ReleaseTokens(tokens, Released(pool, m), {})
  {
    var u, r := tokens + multiset{InternalRelease(m)}, Released(pool, m);
    assert u[InternalRelease(m)] >= 1;
    forall x ensures tokens[InternalRelease(x)] == if x in r.owner && !Referenced(r, {}, x) then 1 else 0 {
      assert u[InternalRelease(x)] == tokens[InternalRelease(x)] + if x == m then 1 else 0;
      assert Referenced(r, {}, x) <==> Referenced(pool, {}, x);
    }
  }

  lemma UnrefTokens(w: World, m: MId)
    requires Known(w) && Owing(w, multiset{InternalRelease(m)}) && InHand(w.pc) == {} && m in w.pool.header
    ensures m in w.pool.owner && !Referenced(w.pool, InHand(w.pc), m)
    ensures w.pool.owner[m].p in w.protos && w.pool.owner[m].c in w.conns
    ensures Owing(Unown(Unref(w, w.pool.owner[m].p, w.pool.owner[m].c), m), multiset{})
  {
    hide Known, ReleaseTokens, CloseTokens, ConnTokens, ProtoTokens, Tokens, Referenced;
    var t := InternalRelease(m);
    var tokens := Tokens(w.tasks, w.pc, w.events);
    ReleasedToken(tokens, w.pool, m);
    OwnedHeader(w, m);
    var p, c := w.pool.owner[m].p, w.pool.owner[m].c;
    CountTokens(tokens + multiset{t}, w.conns, w.protos, c, w.conns[c].refCount - 1, p, w.protos[p].refCount - 1);
    var conns := w.conns[c := w.conns[c].(refCount := w.conns[c].refCount - 1)];
    var protos := w.protos[p := w.protos[p].(refCount := w.protos[p].refCount - 1)];
    NotClose(tokens + multiset{t}, conns, t);
    NotConn(tokens + multiset{t}, conns, t);
    NotProto(tokens + multiset{t}, protos, t);
    assert tokens + multiset{t} - multiset{t} == tokens && tokens + multiset{} == tokens;
  }

  lemma UnrefOrder(w: World, m: MId)
    requires Known(w) && Order(w) && m in w.pool.owner && !Referenced(w.pool, InHand(w.pc), m)
    requires m in w.pool.header && w.pool.owner[m].p in w.protos && w.pool.owner[m].c in w.conns
    ensures Order(Unown(Unref(w, w.pool.owner[m].p, w.pool.owner[m].c), m))
  {
    var p := w.pool.owner[m].p;
    CountOrder(Line(w.tasks, w.pc), w.protos, p, w.protos[p].refCount - 1);
    hide Known, Delegates, Line, Events;
  }

  lemma OwnerLives(w: World, m: MId)
    requires Objects(w) && m in w.pool.owner
    ensures w.pool.owner[m].p in w.protos && w.protos[w.pool.owner[m].p].deletions == 0
    ensures w.pool.owner[m].c in w.conns && w.conns[w.pool.owner[m].c].stopPosts == 0
  {
  }

  // internalReleaseMessage finds both pointers set and both objects alive.
  lemma RunReleaseMsgKeeps(w: World, m: MId)
    requires Inv(w) && w.pc == Running(InternalRelease(m)) && m in w.pool.header
    ensures Inv(ReleaseMsg(GoTo(w, SendQueued), m))
  {
    hide Known, Objects, PoolOk, Obligations, Owing, Order;
    BeginRun(w);
    var w0 := GoTo(w, SendQueued);
    UnrefTokens(w0, m);
    OwnerLives(w0, m);
    UnrefObjects(w0, m);
    UnrefPool(w0, m);
    UnrefOrder(w0, m);
    NothingOwed(ReleaseMsg(w0, m));
  }
}
