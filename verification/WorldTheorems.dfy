/** What holds in every run of the server, in the source's terms. */
module WorldTheorems {
  import opened Wrappers
  import opened ConnectionState
  import opened World
  import opened WorldSteps
  import opened WorldInvariant
  import opened WorldConnProofs
  import opened WorldSendProofs
  import opened WorldRuns

  // A step of a run raises an alarm if and only if it is a timeout of a connection whose onStop has
  // run, and which has a failed or pending read (for the write timeout: write); the alarm is that it
  // follows the null m_socket.
  lemma AlarmsExactly(ws: seq<World>, ss: seq<Step>, i: nat)
    requires IsRun(ws, ss) && i < |ss|
    ensures |ws| == |ss| + 1
    ensures ws[i + 1].alarms != [] <==> LateTimeout(ws[i], ss[i])
    ensures LateTimeout(ws[i], ss[i]) ==> ws[i + 1].alarms == [NullSocketUsed(ss[i].net.c)]
  {
    hide IsRun, StepOf, AtRest, Late;
    StepAt(ws, ss, i);
    RunAtRest(ws, ss, i);
    StepOfKeeps(ws[i], ss[i], ws[i + 1]);
  }

  lemma StepAt(ws: seq<World>, ss: seq<Step>, i: nat)
    requires IsRun(ws, ss) && i < |ss|
    ensures |ws| == |ss| + 1 && StepOf(ws[i], ss[i], ws[i + 1])
  {
    hide StepOf;
  }

  // Without such a timeout, no step uses a deleted protocol, a released connection or a released
  // message, follows a null pointer, refuses a header, finds a connection slow, or prints an error
  // line.
  lemma NothingGoesWrong(ws: seq<World>, ss: seq<Step>, i: nat)
    requires IsRun(ws, ss) && i < |ws|
    requires i > 0 ==> !LateTimeout(ws[i - 1], ss[i - 1])
    ensures ws[i].alarms == []
  {
    hide LateTimeout, StepOf, Late;
    if i > 0 {
      AlarmsExactly(ws, ss, i - 1);
    }
  }

  // From the moment delegate is popped until it returns, its protocol is not deleted, has a
  // connection that still points back at it, and the manager still holds that connection.
  lemma DelegateIsSafe(ws: seq<World>, ss: seq<Step>, i: nat, p: PId)
    requires IsRun(ws, ss) && i < |ws|
    requires ws[i].pc == Running(Delegate(p)) || (ws[i].pc.Delegating? && ws[i].pc.p == p)
    ensures p in ws[i].protos && ws[i].protos[p].deletions == 0 && ws[i].protos[p].connection.Some?
    ensures var c := ws[i].protos[p].connection.value;
      && c in ws[i].conns && ws[i].conns[c].protocol == Some(p) && c in ws[i].manager
      && (ws[i].conns[c].state == Open || ws[i].conns[c].state == RequestClose)
  {
    hide IsRun, Known, Objects, PoolOk, Obligations, Order;
    RunAtRest(ws, ss, i);
    DelegateFinds(Calm(ws[i]), p);
    AttachedLives(Calm(ws[i]), p);
  }

  // A delegate waiting in the queue: no close of its connection is ahead of it.
  lemma DelegateBeforeClose(ws: seq<World>, ss: seq<Step>, i: nat, j: nat, k: nat)
    requires IsRun(ws, ss) && i < |ws| && j < |ws[i].tasks| && k < |ws[i].tasks|
    requires ws[i].tasks[j].Delegate? && ws[i].tasks[k].CloseConnection?
    requires ws[i].tasks[j].p in ws[i].protos
    requires ws[i].protos[ws[i].tasks[j].p].connection == Some(ws[i].tasks[k].c)
    ensures j < k
  {
    hide IsRun, Known, Objects, PoolOk, Obligations, Events;
    RunAtRest(ws, ss, i);
    var w := ws[i];
    var line := Line(w.tasks, w.pc);
    var n := if w.pc.Running? then 1 else 0;
    assert line[n + j] == w.tasks[j] && line[n + k] == w.tasks[k];
    assert j != k;
  }

  // m_refCount counts exactly the messages whose pointer refers to the object.
  lemma RefCountsExact(ws: seq<World>, ss: seq<Step>, i: nat)
    requires IsRun(ws, ss) && i < |ws|
    ensures forall p :: p in ws[i].protos ==> ws[i].protos[p].refCount == |ProtoRefs(ws[i].pool.owner, p)|
    ensures forall c :: c in ws[i].conns ==> ws[i].conns[c].refCount == |ConnRefs(ws[i].pool.owner, c)|
  {
    hide IsRun, Known, PoolOk, Obligations, Order, ConnsOk, Manager, Links, OwnersAlive;
    RunAtRest(ws, ss, i);
  }

  // A protocol is deleted at most once, and then no message and no connection refers to it.
  lemma DeletedOnce(ws: seq<World>, ss: seq<Step>, i: nat, p: PId)
    requires IsRun(ws, ss) && i < |ws| && p in ws[i].protos && ws[i].protos[p].deletions > 0
    ensures ws[i].protos[p].deletions == 1 && ws[i].protos[p].refCount == 0
    ensures forall m :: m in ws[i].pool.owner ==> ws[i].pool.owner[m].p != p
    ensures forall c :: c in ws[i].conns ==> ws[i].conns[c].protocol != Some(p)
  {
    hide IsRun, Known, PoolOk, Obligations, Order, ConnsOk, Manager;
    RunAtRest(ws, ss, i);
    assert ProtoRefs(ws[i].pool.owner, p) == {};
  }

  // closeConnection's body runs at most once per connection, onStop is posted at most once and
  // only when no message refers to the connection, and its handler finds the connection listed.
  lemma ClosedOnce(ws: seq<World>, ss: seq<Step>, i: nat, c: CId)
    requires IsRun(ws, ss) && i < |ws| && c in ws[i].conns
    ensures ws[i].conns[c].closeRuns <= 1 && ws[i].conns[c].stopPosts <= 1
    ensures ws[i].conns[c].stopPosts == 1 ==> ws[i].conns[c].refCount == 0 && ws[i].conns[c].state == Closed
    ensures ws[i].stops[c] <= 1
    ensures ws[i].stops[c] == 1 ==> c in ws[i].manager
    ensures c !in ws[i].manager ==> ws[i].conns[c].stopPosts == 1
  {
    hide IsRun, Known, PoolOk, Obligations, Order, Links, ProtoCounts, NoDup;
    RunAtRest(ws, ss, i);
    assert ConnOk(ws[i].conns[c]);
    if ws[i].conns[c].stopPosts == 1 {
      assert ConnRefs(ws[i].pool.owner, c) == {};
    }
  }

  // The write of message m on connection c is outstanding.
  ghost predicate WritesOf(w: World, m: MId, c: CId) {
    m in w.pool.writes && m in w.pool.owner && w.pool.owner[m].c == c
  }

  // m_pendingWrite is 0 or 1 and at most one asynchronous write of a connection is outstanding, so
  // the slow-connection branch of send() is never taken.
  lemma OneWriteEach(ws: seq<World>, ss: seq<Step>, i: nat, c: CId, force: bool)
    requires IsRun(ws, ss) && i < |ws| && c in ws[i].conns
    ensures 0 <= ws[i].conns[c].pendingWrite <= 1
    ensures SendChoice(ws[i].conns[c], force) != ForceClose
    ensures forall m, n :: WritesOf(ws[i], m, c) && WritesOf(ws[i], n, c) ==> m == n
    ensures ws[i].conns[c].state == Open && (exists m :: WritesOf(ws[i], m, c)) ==> ws[i].conns[c].pendingWrite == 1
  {
    hide IsRun, Known, Obligations, Order, Partition, Headers, OnePlace;
    RunAtRest(ws, ss, i);
    ConnOf(Calm(ws[i]), c);
  }

  // ----- where a message is -----

  ghost predicate IsFree(w: World, m: MId) { m in w.pool.free }
  ghost predicate IsLive(w: World, m: MId) { Referenced(w.pool, InHand(w.pc), m) }
  ghost predicate AwaitsRelease(w: World, m: MId) { Tokens(w.tasks, w.pc, w.events)[InternalRelease(m)] == 1 }

  // Every message ever allocated is free, live or awaiting its one release task, never two of these.
  lemma MessagePartition(ws: seq<World>, ss: seq<Step>, i: nat, m: MId)
    requires IsRun(ws, ss) && i < |ws| && m in ws[i].pool.header
    ensures IsFree(ws[i], m) || IsLive(ws[i], m) || AwaitsRelease(ws[i], m)
    ensures !(IsFree(ws[i], m) && IsLive(ws[i], m))
    ensures !(IsFree(ws[i], m) && AwaitsRelease(ws[i], m))
    ensures !(IsLive(ws[i], m) && AwaitsRelease(ws[i], m))
    ensures Tokens(ws[i].tasks, ws[i].pc, ws[i].events)[InternalRelease(m)] <= 1
  {
    hide IsRun, Objects, Order, Headers, OnePlace, Writes, Tokens, CloseTokens, ConnTokens, ProtoTokens;
    RunAtRest(ws, ss, i);
  }

  // ----- where a protocol is -----

  ghost predicate IsDeleted(w: World, p: PId) { p in w.protos && w.protos[p].deletions == 1 }
  ghost predicate AwaitsDeletion(w: World, p: PId) { Tokens(w.tasks, w.pc, w.events)[ReleaseProtocol(p)] == 1 }

  // Every protocol is attached to a connection, awaiting its one releaseProtocol, or deleted, and
  // never two of these.
  lemma ProtocolPartition(ws: seq<World>, ss: seq<Step>, i: nat, p: PId)
    requires IsRun(ws, ss) && i < |ws| && p in ws[i].protos
    ensures Attached(ws[i].protos, p) || AwaitsDeletion(ws[i], p) || IsDeleted(ws[i], p)
    ensures !(Attached(ws[i].protos, p) && AwaitsDeletion(ws[i], p))
    ensures !(Attached(ws[i].protos, p) && IsDeleted(ws[i], p))
    ensures !(AwaitsDeletion(ws[i], p) && IsDeleted(ws[i], p))
    ensures Tokens(ws[i].tasks, ws[i].pc, ws[i].events)[ReleaseProtocol(p)] <= 1
  {
    hide IsRun, Known, PoolOk, Order, ProtoCounts, ConnCounts, OwnersAlive, ConnsOk, Manager;
    hide Tokens, ReleaseTokens, CloseTokens, ConnTokens;
    RunAtRest(ws, ss, i);
  }

  // The free list has no duplicates and holds only messages without pointers and with header room 8.
  lemma FreeList(ws: seq<World>, ss: seq<Step>, i: nat)
    requires IsRun(ws, ss) && i < |ws|
    ensures NoDup(ws[i].pool.free)
    ensures forall m :: m in ws[i].pool.free ==>
      m !in ws[i].pool.owner && m in ws[i].pool.header && ws[i].pool.header[m].start == 8
  {
    hide IsRun, Objects, Obligations, Order, OnePlace, Writes;
    RunAtRest(ws, ss, i);
  }

  // An allocated message is framed at most once; framing takes its header room exactly from 8 to 0.
  // It waits in at most one queue, unframed, and is framed when it is being written.
  lemma FramedOnce(ws: seq<World>, ss: seq<Step>, i: nat, m: MId)
    requires IsRun(ws, ss) && i < |ws| && m in ws[i].pool.owner
    ensures m in ws[i].pool.header
    ensures ws[i].pool.header[m] == Header(8, 0) || ws[i].pool.header[m] == Header(0, 1)
    ensures Places(ws[i].pool.autoSend, ws[i].pool.addQueue, ws[i].pool.writes)[m] <= 1
    ensures m in ws[i].pool.autoSend || m in ws[i].pool.addQueue ==> ws[i].pool.header[m].framed == 0
    ensures m in ws[i].pool.writes ==> ws[i].pool.header[m].framed == 1
  {
    hide IsRun, Objects, Obligations, Order, Writes, Places;
    RunAtRest(ws, ss, i);
    OwnedHeader(Calm(ws[i]), m);
    assert HeaderOk(ws[i].pool.header[m]);
  }
}
