/** When a connection that is closed goes away, and when it never does. */
module WorldLeak {
  import opened ConnectionState
  import opened World
  import opened WorldSteps
  import opened WorldInvariant
  import opened WorldTaskProofs
  import opened WorldRuns
  import opened WorldForward
  import Refinement

  // Something will release the connection: a callback of releaseConnection or a posted onStop.
  ghost predicate WillGo(w: World, c: CId) {
    Tokens(w.tasks, w.pc, w.events)[ReleaseConnection(c)] > 0 || w.stops[c] > 0
  }

  // What the invariant says of that.
  lemma WillGoWhen(w: World, c: CId)
    requires Inv(w) && c in w.conns
    ensures WillGo(w, c) <==> w.conns[c].state == Closed && c in w.manager
    ensures w.conns[c].state != Closed ==> c in w.manager && w.conns[c].stopPosts == 0
  {
    hide Known, PoolOk, Order, Tokens, CloseTokens, ProtoTokens, ReleaseTokens, Links, OwnersAlive;
    hide ProtoCounts, ConnCounts, NoDup;
    ConnIn(w, c);
  }

  // Once CLOSING, a connection stays so in every later world of the run: it is never released, and
  // the manager keeps it.
  lemma ClosingForever(ws: seq<World>, ss: seq<Step>, i: nat, j: nat, c: CId)
    requires IsRun(ws, ss) && i <= j < |ws| && c in ws[i].conns && ws[i].conns[c].state == Closing
    ensures c in ws[j].conns && ws[j].conns[c].state == Closing && ws[j].conns[c].stopPosts == 0
    ensures c in ws[j].manager && !WillGo(ws[j], c)
  {
    RunForwards(ws, ss, i, j);
    RunAtRest(ws, ss, j);
    hide IsRun, Inv;
    WillGoWhen(Calm(ws[j]), c);
  }

  // The state closeConnection leaves behind
  lemma CloseLeaves(w: World, c: CId)
    requires Known(w) && c in w.conns && w.conns[c].state == RequestClose
    ensures c in CloseConn(w, c).conns && CloseConn(w, c).manager == w.manager
    ensures CloseConn(w, c).conns[c].state ==
      if w.conns[c].pendingWrite == 0 || w.conns[c].writeError then Closed else Closing
  {
    hide Known, CloseConn;
    Refinement.CloseEffect(w, c);
  }

  lemma CloseFound(w: World, c: CId)
    requires Inv(w) && w.pc == Running(CloseConnection(c))
    ensures c in w.conns && w.conns[c].state == RequestClose && w.conns[c].stopPosts == 0 && c in w.manager
  {
    hide Known, PoolOk, Order, ConnTokens, ProtoTokens, ReleaseTokens, Links, OwnersAlive;
    hide ProtoCounts, ConnCounts, NoDup;
    assert Tokens(w.tasks, w.pc, w.events)[CloseConnection(c)] >= 1;
    ConnIn(w, c);
  }

  // The run of closeConnection leads to the release of its connection if and only if no write was
  // pending, or one had failed, at that moment.
  lemma ReleasedExactly(ws: seq<World>, ss: seq<Step>, i: nat, c: CId)
    requires IsRun(ws, ss) && i < |ss| && ss[i] == Work(RunTask) && ws[i].pc == Running(CloseConnection(c))
    ensures |ws| == |ss| + 1 && c in ws[i].conns && c in ws[i + 1].conns
    ensures WillGo(ws[i + 1], c) <==> ws[i].conns[c].pendingWrite == 0 || ws[i].conns[c].writeError
    ensures ws[i + 1].conns[c].state == if WillGo(ws[i + 1], c) then Closed else Closing
  {
    hide Inv, CloseConn, Known;
    RunAtRest(ws, ss, i);
    assert StepOf(ws[i], ss[i], ws[i + 1]);
    RunAtRest(ws, ss, i + 1);
    var w := Calm(ws[i]);
    CloseFound(w, c);
    CloseLeaves(GoTo(w, SendQueued), c);
    WillGoWhen(Calm(ws[i + 1]), c);
  }
}
