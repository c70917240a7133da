/** Runs that show what the theorems about runs are about: a delegate that answers and closes while
    its answer is being written; a connection that stays CLOSING; a timeout that follows a null
    m_socket; a second message that waits. */
module WorldReach {
  import opened Wrappers
  import opened ConnectionState
  import opened World
  import opened WorldSteps
  import opened WorldRuns
  import opened WorldLeak
  import WorldLogin

  function Client(reading: Reading): Conn { FRESH.(pendingRead := 1, reading := reading) }

  function Served(refs: nat, writes: nat, state: State): Conn {
    FRESH.(pendingRead := 1, reading := ReadingHeader, receivedFirst := true, protocol := Some(0),
           refCount := refs, pendingWrite := writes, state := state)
  }

  function Listed(c: Conn): World { START.(conns := map[0 := c], manager := [0]) }

  function Serving(c: Conn, refs: nat, pool: Pool, tasks: seq<Task>, pc: Pc): World {
    Listed(c).(protos := map[0 := Proto(Some(0), refs, 0)], pool := pool, tasks := tasks, pc := pc)
  }

  function OneMessage(h: Header, writes: set<MId>): Pool {
    Pool(map[0 := Owner(0, 0)], map[0 := h], [], [], [], writes, {})
  }

  function Accepted(): World { Listed(Client(ReadingHeader)) }
  function HeaderRead(): World { Listed(Client(ReadingPacket)) }
  function Queued(): World { Serving(Served(0, 0, Open), 0, START.pool, [Delegate(0)], Idle) }
  function Popped(): World { Serving(Served(0, 0, Open), 0, START.pool, [], Running(Delegate(0))) }
  function Entered(): World { Serving(Served(0, 0, Open), 0, START.pool, [], Delegating(0, Empty, false)) }
  function Holding(): World {
    Serving(Served(1, 0, Open), 1, OneMessage(Header(8, 0), {}), [], Delegating(0, Unsent(0), false))
  }
  function Sending(): World {
    Serving(Served(1, 1, Open), 1, OneMessage(Header(0, 1), {0}), [], Delegating(0, Sent(0), false))
  }
  function Closing(): World {
    Serving(Served(1, 1, RequestClose), 1, OneMessage(Header(0, 1), {0}), [CloseConnection(0)],
            Delegating(0, Sent(0), true))
  }

  const STEPS: seq<Step> := [
    Net(Accept(0, None, None)),
    Net(ParseHeader(0, NoError, false, None)),
    Net(ParsePacket(0, NoError, false, 0, FirstPacket.Accepted, None)),
    Work(PopTask),
    Work(RunTask),
    Work(GetMessage(false, 0)),
    Work(SendMessage(false, false)),
    Work(CloseClient)]

  lemma StartKnown()
    ensures Known(START)
  {
  }

  lemma Arrives()
    ensures StepOf(START, STEPS[0], Accepted()) && Known(Accepted())
  {
    hide Known;
    StartKnown();
    assert START.conns[0 := FRESH][0 := Client(ReadingHeader)] == map[0 := Client(ReadingHeader)];
  }

  lemma Announces()
    requires Known(Accepted())
    ensures StepOf(Accepted(), STEPS[1], HeaderRead()) && Known(HeaderRead())
  {
    hide Known;
    var w1 := TakeRead(Accepted(), 0);
    assert w1 == Listed(Client(NotReading));
    assert CountDown(w1, 0) == Listed(Client(NotReading).(pendingRead := 0));
  }

  function Opened(): World { Serving(FRESH.(receivedFirst := true, protocol := Some(0)), 0, START.pool, [], Idle) }

  // The first packet of the client, up to onRecvFirstMessage
  lemma Opens(first: FirstPacket)
    requires Known(HeaderRead()) && !first.NoService?
    ensures Known(Opened())
    ensures PacketStep(HeaderRead(), 0, NoError, false, 0, first, None) == Deliver(Opened(), 0, 0, first, None)
  {
    hide Known, Deliver;
    var w1 := TakeRead(HeaderRead(), 0);
    assert w1 == Listed(Client(NotReading));
    var w2 := CountDown(w1, 0);
    assert w2 == Listed(FRESH);
    var w3 := Received(w2, 0);
    assert w3 == Listed(FRESH.(receivedFirst := true));
    var w4 := Attach(w3, 0, 0);
    assert w4 == Opened();
  }

  lemma Logs()
    requires Known(HeaderRead())
    ensures StepOf(HeaderRead(), STEPS[2], Queued()) && Known(Queued())
  {
    hide Known, PacketStep;
    Opens(FirstPacket.Accepted);
    var w5 := PushBack(TouchProtocol(Opened(), 0), Delegate(0));
    assert w5.tasks == [Delegate(0)];
    assert StartRead(w5, 0, ReadingHeader, None) == Queued();
  }

  lemma Pops()
    requires Known(Queued())
    ensures StepOf(Queued(), STEPS[3], Popped()) && Known(Popped())
  {
    hide Known;
  }

  lemma Enters()
    requires Known(Popped())
    ensures StepOf(Popped(), STEPS[4], Entered()) && Known(Entered())
  {
    hide Known;
  }

  lemma Gets()
    requires Known(Entered())
    ensures StepOf(Entered(), STEPS[5], Holding()) && Known(Holding())
  {
    hide Known;
    var w1 := Alloc(Entered(), 0, false, 0);
    assert w1 ==
      Serving(Served(1, 0, Open), 1, OneMessage(Header(8, 0), {}).(held := {0}), [], Delegating(0, Empty, false));
  }

  lemma HandKnown(w: World, m: MId, r: World)
    requires Known(w) && w.pc.Delegating? && w.pc.hand == Unsent(m) && r == w.(pc := w.pc.(hand := Sent(m)))
    ensures Known(r)
  {
  }

  lemma Sends()
    requires Known(Holding())
    ensures StepOf(Holding(), STEPS[6], Sending()) && Known(Sending())
  {
    hide Known;
    var w1 := Holding().(pc := Delegating(0, Sent(0), false));
    HandKnown(Holding(), 0, w1);
    assert Frame(TouchProtocol(w1, 0), 0) == w1.(pool := OneMessage(Header(0, 1), {}));
  }

  lemma Closes()
    requires Known(Sending())
    ensures StepOf(Sending(), STEPS[7], Closing()) && Known(Closing())
  {
    hide Known;
  }

  // There is a run at whose end a delegate is running, a message of its connection is being written,
  // and the task that will close the connection is queued.
  lemma BusyWorldIsReached() returns (ws: seq<World>, ss: seq<Step>)
    ensures IsRun(ws, ss) && WorldLogin.LoginSteps(ss)
    ensures var w := ws[|ws| - 1];
      && w.pc == Delegating(0, Sent(0), true) && w.pool.writes == {0}
      && w.tasks == [CloseConnection(0)] && w.conns.Keys == {0} && w.conns[0].state == RequestClose
  {
    hide StepOf, Known;
    ss := STEPS;
    ws := [START, Accepted(), HeaderRead(), Queued(), Popped(), Entered(), Holding(), Sending(), Closing()];
    Arrives();
    Announces();
    Logs();
    Pops();
    Enters();
    Gets();
    Sends();
    Closes();
  }

  // ----- a login that is answered, closed and gone -----

  function Answered(tasks: seq<Task>, pc: Pc): World {
    Serving(Served(1, 0, Open), 1, OneMessage(Header(0, 1), {}), tasks, pc)
  }

  function ClientClosed(tasks: seq<Task>, pc: Pc): World {
    Serving(Served(1, 0, RequestClose), 1, OneMessage(Header(0, 1), {}), tasks, pc)
  }

  const EMPTIED: Pool := Pool(map[], map[0 := Header(8, 1)], [0], [], [], {}, {})

  function Freed(tasks: seq<Task>, pc: Pc): World { Serving(Served(0, 0, RequestClose), 0, EMPTIED, tasks, pc) }

  function AllClosed(socket: Socket, stops: multiset<CId>, manager: seq<CId>): World {
    World(map[0 := Conn(Closed, socket, 0, 0, false, false, true, ReadingHeader, None, 0, 1, 1)],
          map[0 := Proto(None, 0, 1)], EMPTIED, [], SendQueued, multiset{}, stops, manager, [])
  }

  const COMPLETED: seq<Step> := STEPS[..7] + [
    Net(OnWrite(0, NoError)),
    Work(DropMessage),
    Work(CloseClient),
    Work(LeaveDelegate),
    Work(QueueMoved),
    Work(SendAllDone),
    Work(PopTask),
    Work(RunTask),
    Work(QueueMoved),
    Work(SendAllDone),
    Work(PopTask),
    Work(RunTask),
    Net(OnStop(0))]

  lemma Writes()
    requires Known(Sending())
    ensures StepOf(Sending(), COMPLETED[7], Answered([], Delegating(0, Sent(0), false)))
    ensures Known(Answered([], Delegating(0, Sent(0), false)))
  {
    hide Known;
    var w1 := TakeWritten(Sending(), 0);
    assert w1 == Serving(Served(1, 1, Open), 1, OneMessage(Header(0, 1), {}).(held := {0}), [],
                         Delegating(0, Sent(0), false));
    var w2 := WriteResult(w1, 0, NoError);
    assert w2 == Serving(Served(1, 0, Open), 1, OneMessage(Header(0, 1), {}).(held := {0}), [],
                         Delegating(0, Sent(0), false));
  }

  lemma LetsGo()
    requires Known(Answered([], Delegating(0, Sent(0), false)))
    ensures StepOf(Answered([], Delegating(0, Sent(0), false)), COMPLETED[8],
                   Answered([InternalRelease(0)], Delegating(0, Empty, false)))
    ensures Known(Answered([InternalRelease(0)], Delegating(0, Empty, false)))
  {
    hide Known;
  }

  lemma ClosesClient()
    requires Known(Answered([InternalRelease(0)], Delegating(0, Empty, false)))
    ensures StepOf(Answered([InternalRelease(0)], Delegating(0, Empty, false)), COMPLETED[9],
                   ClientClosed([InternalRelease(0), CloseConnection(0)], Delegating(0, Empty, true)))
    ensures Known(ClientClosed([InternalRelease(0), CloseConnection(0)], Delegating(0, Empty, true)))
  {
    hide Known;
  }

  lemma Leaves(w: World)
    requires Known(w) && w.pc == Delegating(0, Empty, true) && w.alarms == []
    ensures StepOf(w, Work(LeaveDelegate), w.(pc := SendQueued)) && Known(w.(pc := SendQueued))
  {
    hide Known;
    assert Calm(w) == w && GoTo(w, SendQueued) == w.(pc := SendQueued);
  }

  // sendAll over empty queues
  lemma Passes(w: World)
    requires Known(w) && w.pc == SendQueued && w.pool.addQueue == [] && w.alarms == []
    ensures StepOf(w, Work(QueueMoved), w.(pc := SendAuto))
    ensures StepOf(w.(pc := SendAuto), Work(SendAllDone), w.(pc := Idle)) && Known(w.(pc := Idle))
  {
    hide Known;
    assert Calm(w) == w && GoTo(w, SendAuto) == w.(pc := SendAuto);
    var w1 := w.(pc := SendAuto);
    assert Calm(w1) == w1 && GoTo(w1, Idle) == w.(pc := Idle);
  }

  lemma Takes(w: World)
    requires Known(w) && w.pc == Idle && w.tasks != [] && w.alarms == []
    ensures StepOf(w, Work(PopTask), w.(pc := Running(w.tasks[0]), tasks := w.tasks[1..]))
    ensures Known(w.(pc := Running(w.tasks[0]), tasks := w.tasks[1..]))
  {
    hide Known;
    assert Calm(w) == w && PopStep(w) == w.(pc := Running(w.tasks[0]), tasks := w.tasks[1..]);
  }

  lemma Frees()
    requires Known(ClientClosed([CloseConnection(0)], Running(InternalRelease(0))))
    ensures StepOf(ClientClosed([CloseConnection(0)], Running(InternalRelease(0))), COMPLETED[14],
                   Freed([CloseConnection(0)], SendQueued))
    ensures Known(Freed([CloseConnection(0)], SendQueued))
  {
    hide Known;
    var w := GoTo(ClientClosed([CloseConnection(0)], Running(InternalRelease(0))), SendQueued);
    assert w == ClientClosed([CloseConnection(0)], SendQueued);
    var w1 := Unref(TouchProtocol(w, 0), 0, 0);
    assert w1 == Serving(Served(0, 0, RequestClose), 0, OneMessage(Header(0, 1), {}), [CloseConnection(0)], SendQueued);
    assert Released(w1.pool, 0) == EMPTIED;
  }

  lemma Ends()
    requires Known(Freed([], Running(CloseConnection(0))))
    ensures StepOf(Freed([], Running(CloseConnection(0))), COMPLETED[18], AllClosed(Shut, multiset{0}, [0]))
    ensures Known(AllClosed(Shut, multiset{0}, [0]))
  {
    hide Known;
    var w := GoTo(Freed([], Running(CloseConnection(0))), SendQueued);
    assert w == Freed([], SendQueued);
    var w1 := DetachProtocol(w, 0);
    assert w1.conns == map[0 := Served(0, 0, RequestClose).(protocol := None)];
    assert w1.protos == map[0 := Proto(None, 0, 1)];
    var d := Conn(Closed, Shut, 0, 0, false, false, true, ReadingHeader, None, 0, 1, 0);
    assert w1.conns[0 := CloseBody(w1.conns[0])] == map[0 := d];
  }

  lemma StopsAnswered()
    requires Known(AllClosed(Shut, multiset{0}, [0]))
    ensures StepOf(AllClosed(Shut, multiset{0}, [0]), COMPLETED[19], AllClosed(Gone, multiset{}, []))
  {
    hide Known;
    assert IndexOf([0], 0) == Some(0);
    assert multiset{0} - multiset{0} == multiset{};
  }

  // From the delegate's close to the end of the connection's own
  lemma WindsUp(release: seq<Task>)
    requires release == [InternalRelease(0), CloseConnection(0)]
    requires Known(ClientClosed(release, Delegating(0, Empty, true)))
    ensures StepOf(ClientClosed(release, Delegating(0, Empty, true)), COMPLETED[10], ClientClosed(release, SendQueued))
    ensures StepOf(ClientClosed(release, SendQueued), COMPLETED[11], ClientClosed(release, SendAuto))
    ensures StepOf(ClientClosed(release, SendAuto), COMPLETED[12], ClientClosed(release, Idle))
    ensures StepOf(ClientClosed(release, Idle), COMPLETED[13],
                   ClientClosed([CloseConnection(0)], Running(InternalRelease(0))))
    ensures StepOf(ClientClosed([CloseConnection(0)], Running(InternalRelease(0))), COMPLETED[14],
                   Freed([CloseConnection(0)], SendQueued))
    ensures StepOf(Freed([CloseConnection(0)], SendQueued), COMPLETED[15], Freed([CloseConnection(0)], SendAuto))
    ensures StepOf(Freed([CloseConnection(0)], SendAuto), COMPLETED[16], Freed([CloseConnection(0)], Idle))
    ensures StepOf(Freed([CloseConnection(0)], Idle), COMPLETED[17], Freed([], Running(CloseConnection(0))))
    ensures StepOf(Freed([], Running(CloseConnection(0))), COMPLETED[18], AllClosed(Shut, multiset{0}, [0]))
    ensures Known(AllClosed(Shut, multiset{0}, [0]))
  {
    hide StepOf, Known;
    Leaves(ClientClosed(release, Delegating(0, Empty, true)));
    Passes(ClientClosed(release, SendQueued));
    Takes(ClientClosed(release, Idle));
    assert release[1..] == [CloseConnection(0)];
    Frees();
    Passes(Freed([CloseConnection(0)], SendQueued));
    Takes(Freed([CloseConnection(0)], Idle));
    assert [CloseConnection(0)][1..] == [];
    Ends();
  }

  // A whole login: the answer is written, its message goes back to the free list, the connection is
  // closed, the protocol deleted, and onStop runs.
  lemma LoginIsCompleted() returns (ws: seq<World>, ss: seq<Step>)
    ensures IsRun(ws, ss) && WorldLogin.LoginSteps(ss)
    ensures ws[|ws| - 1] == World(
      map[0 := Conn(Closed, Gone, 0, 0, false, false, true, ReadingHeader, None, 0, 1, 1)],
      map[0 := Proto(None, 0, 1)],
      Pool(map[], map[0 := Header(8, 1)], [0], [], [], {}, {}),
      [], SendQueued, multiset{}, multiset{}, [], [])
  {
    hide StepOf, Known;
    ss := COMPLETED;
    var release := [InternalRelease(0), CloseConnection(0)];
    ws := [START, Accepted(), HeaderRead(), Queued(), Popped(), Entered(), Holding(), Sending(),
           Answered([], Delegating(0, Sent(0), false)),
           Answered([InternalRelease(0)], Delegating(0, Empty, false)),
           ClientClosed(release, Delegating(0, Empty, true)),
           ClientClosed(release, SendQueued), ClientClosed(release, SendAuto), ClientClosed(release, Idle),
           ClientClosed([CloseConnection(0)], Running(InternalRelease(0))),
           Freed([CloseConnection(0)], SendQueued), Freed([CloseConnection(0)], SendAuto),
           Freed([CloseConnection(0)], Idle), Freed([], Running(CloseConnection(0))),
           AllClosed(Shut, multiset{0}, [0]), AllClosed(Gone, multiset{}, [])];
    Arrives();
    Announces();
    Logs();
    Pops();
    Enters();
    Gets();
    Sends();
    Writes();
    LetsGo();
    ClosesClient();
    WindsUp(release);
    StopsAnswered();
  }

  // ----- a delegate that asks twice -----

  function TwoMessages(h: Header, queue: seq<MId>): Pool {
    Pool(map[0 := Owner(0, 0), 1 := Owner(0, 0)], map[0 := Header(0, 1), 1 := h], [], [], queue, {0}, {})
  }

  function SentOne(): World {
    Serving(Served(1, 1, Open), 1, OneMessage(Header(0, 1), {0}), [], Delegating(0, Empty, false))
  }
  function HoldingNext(): World {
    Serving(Served(2, 1, Open), 2, TwoMessages(Header(8, 0), []), [], Delegating(0, Unsent(1), false))
  }
  function Waiting(): World {
    Serving(Served(2, 1, Open), 2, TwoMessages(Header(8, 0), [1]), [], Delegating(0, Sent(1), false))
  }

  const TWICE: seq<Step> := STEPS[..7] + [
    Work(DropMessage),
    Work(GetMessage(false, 1)),
    Work(SendMessage(false, false))]

  lemma Drops()
    requires Known(Sending())
    ensures StepOf(Sending(), TWICE[7], SentOne()) && Known(SentOne())
  {
    hide Known;
  }

  lemma GetsNext()
    requires Known(SentOne())
    ensures StepOf(SentOne(), TWICE[8], HoldingNext()) && Known(HoldingNext())
  {
    hide Known;
    var w1 := Alloc(SentOne(), 0, false, 1);
    assert w1 == Serving(Served(2, 1, Open), 2, TwoMessages(Header(8, 0), []).(held := {1}), [],
                         Delegating(0, Empty, false));
  }

  lemma Waits()
    requires Known(HoldingNext())
    ensures StepOf(HoldingNext(), TWICE[9], Waiting()) && Known(Waiting())
  {
    hide Known;
    HandKnown(HoldingNext(), 1, HoldingNext().(pc := Delegating(0, Sent(1), false)));
  }

  // The queues stay empty because login asks once: with a second message, sent while the first one is
  // being written, a message does wait for sendAll.
  lemma SecondMessageWaits() returns (ws: seq<World>, ss: seq<Step>)
    ensures IsRun(ws, ss) && ws[|ws| - 1].pool.addQueue == [1] && !WorldLogin.LoginSteps(ss)
  {
    hide StepOf, Known;
    ss := TWICE;
    ws := [START, Accepted(), HeaderRead(), Queued(), Popped(), Entered(), Holding(), Sending(),
           SentOne(), HoldingNext(), Waiting()];
    Arrives();
    Announces();
    Logs();
    Pops();
    Enters();
    Gets();
    Sends();
    Drops();
    GetsNext();
    Waits();
    if WorldLogin.LoginSteps(ss) {
      WorldLogin.LoginQueuesEmpty(ws, ss, 10);
    }
  }

  // ----- a connection that is never released -----

  function Rejecting(): World {
    Serving(Served(1, 1, RequestClose), 1, OneMessage(Header(0, 1), {0}), [CloseConnection(0)], Idle)
  }

  function ClosingNext(): World { Rejecting().(tasks := [], pc := Running(CloseConnection(0))) }

  function Leaked(): World {
    Rejecting().(conns := map[0 := Served(1, 1, State.Closing).(protocol := None, closeRuns := 1)],
                 protos := map[0 := Proto(None, 1, 0)],
                 tasks := [], pc := SendQueued, events := multiset{ReleaseProtocol(0)})
  }

  const REJECTED: seq<Step> := [
    Net(Accept(0, None, None)),
    Net(ParseHeader(0, NoError, false, None)),
    Net(ParsePacket(0, NoError, false, 0, Rejected(0, false, false), None)),
    Work(PopTask),
    Work(RunTask)]

  lemma Rejects()
    requires Known(HeaderRead())
    ensures StepOf(HeaderRead(), REJECTED[2], Rejecting()) && Known(Rejecting())
  {
    hide Known, PacketStep, FirstMessage;
    Opens(Rejected(0, false, false));
    Answers(Opened());
  }

  // disconnectClient on the new connection
  lemma Answers(w: World)
    requires w == Opened() && Known(w)
    ensures FirstMessage(TouchProtocol(w, 0), 0, Rejected(0, false, false)) ==
      Serving(Served(1, 1, RequestClose).(pendingRead := 0, reading := NotReading), 1, OneMessage(Header(0, 1), {0}),
              [CloseConnection(0)], Idle)
  {
    hide Known;
    var c := FRESH.(receivedFirst := true, protocol := Some(0), refCount := 1);
    var w1 := Alloc(w, 0, false, 0);
    assert w1 == Serving(c, 1, OneMessage(Header(8, 0), {}).(held := {0}), [], Idle);
    var w2 := Frame(TouchProtocol(w1, 0), 0);
    assert w2 == Serving(c, 1, OneMessage(Header(0, 1), {}).(held := {0}), [], Idle);
    var w3 := Send(w1, 0, false, false);
    assert w3 == Serving(c.(pendingWrite := 1), 1, OneMessage(Header(0, 1), {0}).(held := {0}), [], Idle);
    var w4 := CloseOf(w3, 0);
    assert w4 == Serving(c.(pendingWrite := 1, state := RequestClose), 1,
      OneMessage(Header(0, 1), {0}).(held := {0}), [CloseConnection(0)], Idle);
  }

  lemma PopsClose()
    requires Known(Rejecting())
    ensures StepOf(Rejecting(), REJECTED[3], ClosingNext()) && Known(ClosingNext())
  {
    hide Known;
  }

  lemma Leaks()
    requires Known(ClosingNext())
    ensures StepOf(ClosingNext(), REJECTED[4], Leaked())
  {
    hide Known;
    var w := GoTo(ClosingNext(), SendQueued);
    var w1 := DetachProtocol(w, 0);
    assert w1.conns == map[0 := Served(1, 1, RequestClose).(protocol := None)];
    assert w1.protos == map[0 := Proto(None, 1, 0)];
  }

  // An ordinary rejected login leads, after the five steps, to a connection that will never be
  // released: closeConnection runs before the answer has been written.
  lemma LeakIsReached() returns (ws: seq<World>, ss: seq<Step>)
    ensures IsRun(ws, ss)
    ensures var w := ws[|ws| - 1];
      0 in w.conns && w.conns[0].state == State.Closing && w.pool.writes == {0} && 0 in w.manager && !WillGo(w, 0)
  {
    hide StepOf, Known;
    ss := REJECTED;
    ws := [START, Accepted(), HeaderRead(), Rejecting(), ClosingNext(), Leaked()];
    Arrives();
    Announces();
    Rejects();
    PopsClose();
    Leaks();
    assert IsRun(ws, ss);
    ClosingForever(ws, ss, 5, 5, 0);
  }

  // ----- a timeout of a connection whose onStop has run -----

  function Refusing(): World { Serving(Served(0, 0, RequestClose), 0, START.pool, [CloseConnection(0)], Idle) }

  function RefusingNext(): World { Refusing().(tasks := [], pc := Running(CloseConnection(0))) }

  function Ended(reading: Reading, readError: bool, socket: Socket): Conn {
    FRESH.(receivedFirst := true, reading := reading, readError := readError, socket := socket,
           state := Closed, closeRuns := 1, stopPosts := 1)
  }

  function Ending(c: Conn, stops: multiset<CId>, manager: seq<CId>, alarms: seq<Alarm>): World {
    Listed(c).(protos := map[0 := Proto(None, 0, 1)], pc := SendQueued, stops := stops, manager := manager,
               alarms := alarms)
  }

  function StopPosted(): World { Ending(Ended(ReadingHeader, false, Shut), multiset{0}, [0], []) }
  function ReadAborted(): World { Ending(Ended(NotReading, true, Shut), multiset{0}, [0], []) }
  function StopRun(): World { Ending(Ended(NotReading, true, Gone), multiset{}, [], []) }
  function SocketMissed(): World { Ending(Ended(NotReading, true, Gone), multiset{}, [], [NullSocketUsed(0)]) }

  const REFUSED: seq<Step> := [
    Net(Accept(0, None, None)),
    Net(ParseHeader(0, NoError, false, None)),
    Net(ParsePacket(0, NoError, false, 0, BadKey, None)),
    Work(PopTask),
    Work(RunTask),
    Net(ParseHeader(0, Aborted, false, None)),
    Net(OnStop(0)),
    Net(ReadTimeout(0))]

  lemma Refuses()
    requires Known(HeaderRead())
    ensures StepOf(HeaderRead(), REFUSED[2], Refusing()) && Known(Refusing())
  {
    hide Known, PacketStep;
    Opens(BadKey);
    var w5 := CloseOf(TouchProtocol(Opened(), 0), 0);
    assert w5 == Serving(FRESH.(receivedFirst := true, protocol := Some(0), state := RequestClose), 0, START.pool,
      [CloseConnection(0)], Idle);
    assert StartRead(w5, 0, ReadingHeader, None) == Refusing();
  }

  lemma PopsRefused()
    requires Known(Refusing())
    ensures StepOf(Refusing(), REFUSED[3], RefusingNext()) && Known(RefusingNext())
  {
    hide Known;
  }

  lemma PostsStop()
    requires Known(RefusingNext())
    ensures StepOf(RefusingNext(), REFUSED[4], StopPosted()) && Known(StopPosted())
  {
    hide Known;
    var w := GoTo(RefusingNext(), SendQueued);
    var w1 := DetachProtocol(w, 0);
    assert w1.conns == map[0 := Served(0, 0, RequestClose).(protocol := None)];
    assert w1.protos == map[0 := Proto(None, 0, 1)];
    assert w1.conns[0 := CloseBody(w1.conns[0])] == map[0 := Ended(ReadingHeader, false, Shut).(stopPosts := 0)];
  }

  lemma AbortsRead()
    requires Known(StopPosted())
    ensures StepOf(StopPosted(), REFUSED[5], ReadAborted()) && Known(ReadAborted())
  {
    hide Known;
    var w1 := TakeRead(StopPosted(), 0);
    assert w1.conns == map[0 := Ended(NotReading, false, Shut)];
    assert ReadFailed(w1, 0, Aborted) == ReadAborted();
  }

  lemma RunsStop()
    requires Known(ReadAborted())
    ensures StepOf(ReadAborted(), REFUSED[6], StopRun()) && Known(StopRun())
  {
    hide Known;
    assert IndexOf([0], 0) == Some(0);
  }

  lemma MissesSocket()
    requires Known(StopRun())
    ensures StepOf(StopRun(), REFUSED[7], SocketMissed())
  {
    hide Known;
  }

  // A client that is refused, whose read timer expires just before its connection is closed: the
  // handler, which no cancel can recall, gets the lock after onStop.
  lemma NullSocketIsReached() returns (ws: seq<World>, ss: seq<Step>)
    ensures IsRun(ws, ss) && ws[|ws| - 1].alarms == [NullSocketUsed(0)]
  {
    hide StepOf, Known;
    ss := REFUSED;
    ws := [START, Accepted(), HeaderRead(), Refusing(), RefusingNext(), StopPosted(), ReadAborted(), StopRun(),
      SocketMissed()];
    Arrives();
    Announces();
    Refuses();
    PopsRefused();
    PostsStop();
    AbortsRead();
    RunsStop();
    MissesSocket();
  }
}
