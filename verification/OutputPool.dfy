/** src/net/outputmessage.cpp: the queues of OutputMessagePool and their ageing. */
module OutputPool {

  const U64 := 0x1_0000_0000_0000_0000

  // An OutputMessage in a queue: which one, and m_frame in milliseconds.
  datatype Msg = Msg(id: nat, frame: nat)

  // What Connection::send does with a message whose connection is set.
  datatype Way = Written | Refused | Requeued

  // uint64_t subtraction
  function Minus(a: nat, b: nat): (r: nat)
    requires a < U64 && b < U64
    ensures r < U64 && (b <= a ==> r == a - b)
  {
    (a - b) % U64
  }

  // ----- what sendAll computes -----

  // First loop: an expired message is left out, an old one goes to the front, any other to the back.
  function Moved(auto: seq<Msg>, add: seq<Msg>, frameTime: nat, dropTime: nat): seq<Msg>
    decreases |add|
  {
    if add == [] then auto
    else
      var m := add[0];
      if m.frame < dropTime then Moved(auto, add[1..], frameTime, dropTime)
      else if frameTime > m.frame then Moved([m] + auto, add[1..], frameTime, dropTime)
      else Moved(auto + [m], add[1..], frameTime, dropTime)
  }

  // The expired messages of the first loop
  function Expired(add: seq<Msg>, dropTime: nat): seq<Msg> {
    if add == [] then []
    else (if add[0].frame < dropTime then [add[0]] else []) + Expired(add[1..], dropTime)
  }

  // Second loop: how many messages it takes from the front
  function Taken(auto: seq<Msg>, frameTime: nat): (n: nat)
    ensures n <= |auto|
    ensures forall i :: 0 <= i < n ==> auto[i].frame < frameTime
    ensures n < |auto| ==> auto[n].frame >= frameTime
  {
    if auto == [] || frameTime <= auto[0].frame then 0 else 1 + Taken(auto[1..], frameTime)
  }

  // The messages of s that go way x, when the k-th is sent way way(k)
  function Chosen(s: seq<Msg>, way: nat -> Way, x: Way): seq<Msg> {
    if s == [] then []
    else Chosen(s[..|s| - 1], way, x) + (if way(|s| - 1) == x then [s[|s| - 1]] else [])
  }

  class OutputMessagePool {
    var m_autoSend: seq<Msg>
    var m_addQueue: seq<Msg>
    var m_frameTime: nat
    var framed: multiset<Msg>   // calls of onSendMessage

    constructor (now: nat)
      ensures m_autoSend == [] && m_addQueue == [] && m_frameTime == now && framed == multiset{}
    {
      m_autoSend, m_addQueue, m_frameTime, framed := [], [], now, multiset{};
    }

    method StartExecutionFrame(now: nat)
      modifies this`m_frameTime
      ensures m_frameTime == now
    {
      m_frameTime := now;
    }

    // configureOutputMessage() of an autosend message
    method Configure(id: nat) returns (m: Msg)
      modifies this`m_autoSend
      ensures m == Msg(id, m_frameTime) && m_autoSend == old(m_autoSend) + [m]
    {
      m := Msg(id, m_frameTime);
      m_autoSend := m_autoSend + [m];
    }

    method AutoSend(m: Msg)
      modifies this`m_addQueue
      ensures m_addQueue == old(m_addQueue) + [m]
    {
      m_addQueue := m_addQueue + [m];
    }

    // The first loop of sendAll
    method MoveQueued(frameTime: nat, dropTime: nat)
      modifies this`m_autoSend, this`m_addQueue, this`framed
      ensures m_autoSend == Moved(old(m_autoSend), old(m_addQueue), frameTime, dropTime)
      ensures m_addQueue == []
      ensures framed == old(framed) + multiset(Expired(old(m_addQueue), dropTime))
    {
      hide Moved, Expired;
      ghost var add := m_addQueue;
      NothingMoved(frameTime, dropTime);
      assert add[0..] == add;
      var i := 0;
      while i < |m_addQueue|
        invariant 0 <= i <= |m_addQueue| && m_addQueue == add
        invariant Moved(m_autoSend, add[i..], frameTime, dropTime) == Moved(old(m_autoSend), add, frameTime, dropTime)
        invariant framed + multiset(Expired(add[i..], dropTime)) == old(framed) + multiset(Expired(add, dropTime))
      {
        NextMoved(m_autoSend, add, i, frameTime, dropTime);
        var m := m_addQueue[i];
        if m.frame >= dropTime {
          if frameTime > m.frame {
            m_autoSend := [m] + m_autoSend;
          } else {
            m_autoSend := m_autoSend + [m];
          }
        } else {
          framed := framed + multiset{m};
        }
        i := i + 1;
      }
      m_addQueue := [];
      assert add[i..] == [];
    }

    // The second loop of sendAll; the k-th message sent goes way(k).
    method SendOld(frameTime: nat, way: nat -> Way)
      modifies this`m_autoSend, this`m_addQueue, this`framed
      ensures var n := Taken(old(m_autoSend), frameTime);
        && m_autoSend == old(m_autoSend)[n..]
        && m_addQueue == old(m_addQueue) + Chosen(old(m_autoSend)[..n], way, Requeued)
        && framed == old(framed) + Framed(old(m_autoSend)[..n], way)
    {
      hide Framed, Chosen, Taken;
      ghost var all := m_autoSend;
      NoneChosen(way);
      assert all[..0] == [] && all[0..] == all;
      var k := 0;
      while m_autoSend != [] && frameTime > m_autoSend[0].frame
        invariant k <= |all| && m_autoSend == all[k..]
        invariant k + Taken(all[k..], frameTime) == Taken(all, frameTime)
        invariant m_addQueue == old(m_addQueue) + Chosen(all[..k], way, Requeued)
        invariant framed == old(framed) + Framed(all[..k], way)
        decreases |m_autoSend|
      {
        NextSent(all, k, frameTime, way);
        var m := m_autoSend[0];
        match way(k) {
          case Requeued => m_addQueue := m_addQueue + [m];
          case _ => framed := framed + multiset{m};
        }
        m_autoSend := m_autoSend[1..];
        k := k + 1;
      }
      NoneTaken(m_autoSend, frameTime);
    }

    // sendAll(): one pass over both queues. No message appears, doubles or vanishes: each ends up in a
    // queue or was framed once.
    method SendAll(way: nat -> Way)
      requires m_frameTime < U64
      modifies this`m_autoSend, this`m_addQueue, this`framed
      ensures State() == Pass(old(State()), way)
      ensures multiset(m_autoSend) + multiset(m_addQueue) + framed
        == multiset(old(m_autoSend)) + multiset(old(m_addQueue)) + old(framed)
    {
      var dropTime := Minus(m_frameTime, 10000);
      var frameTime := Minus(m_frameTime, 10);
      PassConserves(m_autoSend, m_addQueue, frameTime, dropTime, way);
      MoveQueued(frameTime, dropTime);
      SendOld(frameTime, way);
    }

    function State(): Queues
      reads this
    {
      Queues(m_autoSend, m_addQueue, m_frameTime)
    }
  }

  datatype Queues = Queues(auto: seq<Msg>, add: seq<Msg>, frameTime: nat)

  // One sendAll
  function Pass(q: Queues, way: nat -> Way): Queues
    requires q.frameTime < U64
  {
    var limit, expired := Minus(q.frameTime, 10), Minus(q.frameTime, 10000);
    var all := Moved(q.auto, q.add, limit, expired);
    var n := Taken(all, limit);
    q.(auto := all[n..], add := Chosen(all[..n], way, Requeued))
  }

  // The messages of s that were framed while being sent
  function Framed(s: seq<Msg>, way: nat -> Way): multiset<Msg> {
    multiset(Chosen(s, way, Written)) + multiset(Chosen(s, way, Refused))
  }

  // What the first loop does with one message
  lemma NextMoved(auto: seq<Msg>, add: seq<Msg>, i: nat, frameTime: nat, dropTime: nat)
    requires i < |add|
    ensures Moved(auto, add[i..], frameTime, dropTime) ==
      Moved(if add[i].frame < dropTime then auto
            else if frameTime > add[i].frame then [add[i]] + auto else auto + [add[i]],
            add[i + 1..], frameTime, dropTime)
    ensures multiset(Expired(add[i..], dropTime)) ==
      (if add[i].frame < dropTime then multiset{add[i]} else multiset{}) + multiset(Expired(add[i + 1..], dropTime))
  {
    assert add[i..][1..] == add[i + 1..];
  }

  lemma NothingMoved(frameTime: nat, dropTime: nat)
    ensures forall auto :: Moved(auto, [], frameTime, dropTime) == auto
    ensures Expired([], dropTime) == []
  {
  }

  lemma NextSent(all: seq<Msg>, k: nat, frameTime: nat, way: nat -> Way)
    requires k < |all| && all[k].frame < frameTime
    ensures all[k..][1..] == all[k + 1..]
    ensures Taken(all[k..], frameTime) == 1 + Taken(all[k + 1..], frameTime)
    ensures forall x :: Chosen(all[..k + 1], way, x) == Chosen(all[..k], way, x) + if way(k) == x then [all[k]] else []
    ensures Framed(all[..k + 1], way) ==
      Framed(all[..k], way) + if way(k) == Requeued then multiset{} else multiset{all[k]}
  {
    hide Framed, Chosen;
    ChosenNext(all[..k], all[k], way);
    assert all[..k + 1] == all[..k] + [all[k]];
  }

  lemma NoneTaken(s: seq<Msg>, frameTime: nat)
    requires s == [] || frameTime <= s[0].frame
    ensures Taken(s, frameTime) == 0
  {
  }

  lemma NoneChosen(way: nat -> Way)
    ensures forall x :: Chosen([], way, x) == []
    ensures Framed([], way) == multiset{}
  {
  }

  lemma ChosenNext(s: seq<Msg>, m: Msg, way: nat -> Way)
    ensures forall x :: Chosen(s + [m], way, x) == Chosen(s, way, x) + if way(|s|) == x then [m] else []
    ensures Framed(s + [m], way) == Framed(s, way) + if way(|s|) == Requeued then multiset{} else multiset{m}
  {
    assert (s + [m])[..|s|] == s;
  }

  lemma {:induction false} MovedConserves(auto: seq<Msg>, add: seq<Msg>, frameTime: nat, dropTime: nat)
    ensures multiset(Moved(auto, add, frameTime, dropTime)) + multiset(Expired(add, dropTime)) ==
      multiset(auto) + multiset(add)
    decreases |add|
  {
    if add != [] {
      var m, rest := add[0], add[1..];
      assert multiset(add) == multiset{m} + multiset(rest) by { assert add == [m] + rest; }
      if m.frame < dropTime {
        MovedConserves(auto, rest, frameTime, dropTime);
        var moved, expired := multiset(Moved(auto, rest, frameTime, dropTime)), multiset(Expired(rest, dropTime));
        assert multiset(Expired(add, dropTime)) == multiset{m} + expired;
        assert moved + (multiset{m} + expired) == multiset{m} + (moved + expired);
      } else if frameTime > m.frame {
        MovedConserves([m] + auto, rest, frameTime, dropTime);
        assert multiset([m] + auto) == multiset{m} + multiset(auto);
        assert Expired(add, dropTime) == Expired(rest, dropTime);
      } else {
        MovedConserves(auto + [m], rest, frameTime, dropTime);
        assert Expired(add, dropTime) == Expired(rest, dropTime);
      }
    }
  }

  lemma {:induction false} ChosenConserves(s: seq<Msg>, way: nat -> Way)
    ensures Framed(s, way) + multiset(Chosen(s, way, Requeued)) == multiset(s)
  {
    if s != [] {
      var less, m := s[..|s| - 1], s[|s| - 1];
      assert s == less + [m];
      ChosenConserves(less, way);
      ChosenNext(less, m, way);
    }
  }

  lemma CutConserves(s: seq<Msg>, n: nat)
    requires n <= |s|
    ensures multiset(s) == multiset(s[..n]) + multiset(s[n..])
  {
    assert s == s[..n] + s[n..];
  }

  lemma PassConserves(auto: seq<Msg>, add: seq<Msg>, frameTime: nat, dropTime: nat, way: nat -> Way)
    ensures var all := Moved(auto, add, frameTime, dropTime);
      var n := Taken(all, frameTime);
      multiset(all[n..]) + multiset(Chosen(all[..n], way, Requeued)) + Framed(all[..n], way)
        + multiset(Expired(add, dropTime)) == multiset(auto) + multiset(add)
  {
    hide Moved, Taken, Chosen, Framed, Expired;
    var all := Moved(auto, add, frameTime, dropTime);
    var n := Taken(all, frameTime);
    MovedConserves(auto, add, frameTime, dropTime);
    ChosenConserves(all[..n], way);
    CutConserves(all, n);
  }

  // ----- order and age -----

  predicate Sorted(s: seq<Msg>) { forall i, j :: 0 <= i < j < |s| ==> s[i].frame <= s[j].frame }

  // Between frames: m_autoSend is ordered and holds nothing older than 10 ms before the last frame;
  // m_addQueue holds only such older messages, put back by sendAll.
  ghost predicate Settled(q: Queues) {
    && Sorted(q.auto)
    && (forall m :: m in q.auto ==> q.frameTime <= m.frame + 10 && m.frame <= q.frameTime)
    && (forall m :: m in q.add ==> m.frame + 10 < q.frameTime)
  }

  // What a task does to the queues within its frame: allocate autosend messages and queue others, all
  // carrying the frame's time.
  datatype Use = Auto(id: nat) | Queue(id: nat)

  function Used(q: Queues, uses: seq<Use>): Queues {
    if uses == [] then q
    else
      var q1 := Used(q, uses[..|uses| - 1]);
      match uses[|uses| - 1]
      case Auto(id) => q1.(auto := q1.auto + [Msg(id, q.frameTime)])
      case Queue(id) => q1.(add := q1.add + [Msg(id, q.frameTime)])
  }

  // One dispatcher frame: startExecutionFrame, the task, sendAll
  function FrameOf(q: Queues, now: nat, uses: seq<Use>, way: nat -> Way): Queues
    requires now < U64
  {
    UsedTime(q.(frameTime := now), uses);
    Pass(Used(q.(frameTime := now), uses), way)
  }

  lemma {:induction false} UsedTime(q: Queues, uses: seq<Use>)
    ensures Used(q, uses).frameTime == q.frameTime
  {
    if uses != [] { UsedTime(q, uses[..|uses| - 1]); }
  }

  // Inside a frame: queued messages are old or of this frame, autosend messages are in order.
  ghost predicate InFrame(q: Queues) {
    && Sorted(q.auto)
    && (forall m :: m in q.auto ==> m.frame <= q.frameTime)
    && (forall m :: m in q.add ==> m.frame + 10 < q.frameTime || m.frame == q.frameTime)
  }

  lemma {:induction false} UsedInFrame(q: Queues, uses: seq<Use>)
    requires InFrame(q)
    ensures InFrame(Used(q, uses))
  {
    if uses != [] {
      UsedInFrame(q, uses[..|uses| - 1]);
      UsedTime(q, uses[..|uses| - 1]);
    }
  }

  // The first loop puts old messages before the others, which stay in order.
  ghost predicate OldThenSorted(s: seq<Msg>, n: nat, limit: nat) {
    n <= |s| && (forall i :: 0 <= i < n ==> s[i].frame < limit) && Sorted(s[n..])
  }

  lemma {:induction false} MovedOrder(auto: seq<Msg>, add: seq<Msg>, limit: nat, drop: nat, now: nat, n: nat)
    returns (k: nat)
    requires OldThenSorted(auto, n, limit) && limit <= now
    requires forall i :: n <= i < |auto| ==> auto[i].frame <= now
    requires forall m :: m in add ==> m.frame < limit || m.frame == now
    ensures OldThenSorted(Moved(auto, add, limit, drop), k, limit)
    ensures forall m :: m in Moved(auto, add, limit, drop) ==> m in auto || m in add
    decreases |add|
  {
    k := n;
    if add != [] {
      var m, rest := add[0], add[1..];
      assert forall x :: x in rest ==> x in add;
      if m.frame < drop {
        k := MovedOrder(auto, rest, limit, drop, now, n);
      } else if limit > m.frame {
        assert ([m] + auto)[n + 1..] == auto[n..];
        k := MovedOrder([m] + auto, rest, limit, drop, now, n + 1);
      } else {
        assert (auto + [m])[n..] == auto[n..] + [m];
        k := MovedOrder(auto + [m], rest, limit, drop, now, n);
      }
    }
  }

  lemma {:induction false} ChosenMembers(s: seq<Msg>, way: nat -> Way, x: Way)
    ensures forall m :: m in Chosen(s, way, x) ==> m in s
  {
    if s != [] { ChosenMembers(s[..|s| - 1], way, x); }
  }

  // After the second loop the rest is ordered, and starts with a message that is not old.
  lemma RestOrder(all: seq<Msg>, k: nat, limit: nat)
    requires OldThenSorted(all, k, limit)
    ensures Sorted(all[Taken(all, limit)..])
    ensures forall m :: m in all[Taken(all, limit)..] ==> limit <= m.frame
  {
    var n := Taken(all, limit);
    assert n >= k;
    assert all[n..] == all[k..][n - k..];
    var rest := all[n..];
    forall i | 0 <= i < |rest| ensures limit <= rest[i].frame {
      assert rest[0] == all[n];
    }
  }

  lemma PassSettles(q: Queues, way: nat -> Way)
    requires InFrame(q) && 10000 <= q.frameTime < U64
    ensures Settled(Pass(q, way))
  {
    hide Sorted, Moved, Taken, Chosen, OldThenSorted;
    var limit, drop := q.frameTime - 10, q.frameTime - 10000;
    var all := Moved(q.auto, q.add, limit, drop);
    assert q.auto[0..] == q.auto;
    var k := MovedOrder(q.auto, q.add, limit, drop, q.frameTime, 0);
    RestOrder(all, k, limit);
    var n := Taken(all, limit);
    ChosenMembers(all[..n], way, Requeued);
    CutMembers(all, n, limit);
  }

  lemma CutMembers(all: seq<Msg>, n: nat, limit: nat)
    requires n <= |all| && forall i :: 0 <= i < n ==> all[i].frame < limit
    ensures forall m :: m in all[..n] ==> m.frame < limit && m in all
    ensures forall m :: m in all[n..] ==> m in all
  {
  }

  // While the pool is used only inside frames and the clock never goes back, every frame leaves
  // m_autoSend ordered and without messages older than 10 ms before the frame.
  lemma FrameSettles(q: Queues, now: nat, uses: seq<Use>, way: nat -> Way)
    requires Settled(q) && q.frameTime <= now && 10000 <= now < U64
    ensures Settled(FrameOf(q, now, uses, way)) && FrameOf(q, now, uses, way).frameTime == now
  {
    var q1 := q.(frameTime := now);
    UsedInFrame(q1, uses);
    UsedTime(q1, uses);
    PassSettles(Used(q1, uses), way);
  }

  datatype Frame = Frame(now: nat, uses: seq<Use>, way: nat -> Way)

  function RunFrames(q: Queues, fs: seq<Frame>): Queues
    requires forall i :: 0 <= i < |fs| ==> fs[i].now < U64
  {
    if fs == [] then q
    else FrameOf(RunFrames(q, fs[..|fs| - 1]), fs[|fs| - 1].now, fs[|fs| - 1].uses, fs[|fs| - 1].way)
  }

  ghost predicate Clocked(t: nat, fs: seq<Frame>) {
    && (forall i :: 0 <= i < |fs| ==> 10000 <= fs[i].now < U64 && t <= fs[i].now)
    && (forall i, j :: 0 <= i < j < |fs| ==> fs[i].now <= fs[j].now)
  }

  // ... and so does every run of frames, from the empty pool on.
  lemma {:induction false} RunSettles(q: Queues, fs: seq<Frame>)
    requires Settled(q) && Clocked(q.frameTime, fs)
    ensures Settled(RunFrames(q, fs))
    ensures RunFrames(q, fs).frameTime == if fs == [] then q.frameTime else fs[|fs| - 1].now
  {
    if fs != [] {
      var less, f := fs[..|fs| - 1], fs[|fs| - 1];
      assert forall i :: 0 <= i < |less| ==> less[i] == fs[i];
      RunSettles(q, less);
      FrameSettles(RunFrames(q, less), f.now, f.uses, f.way);
    }
  }

  lemma {:induction false} UsedMembers(q: Queues, uses: seq<Use>)
    ensures forall m :: m in Used(q, uses).auto ==> m in q.auto || m.frame == q.frameTime
    ensures forall m :: m in Used(q, uses).add ==> m in q.add || m.frame == q.frameTime
  {
    if uses != [] { UsedMembers(q, uses[..|uses| - 1]); }
  }

  lemma {:induction false} ExpiredLeave(auto: seq<Msg>, add: seq<Msg>, limit: nat, drop: nat)
    ensures forall m :: m in Moved(auto, add, limit, drop) && m.frame < drop ==> m in auto
    decreases |add|
  {
    if add != [] {
      var m := add[0];
      ExpiredLeave(if m.frame < drop then auto else if limit > m.frame then [m] + auto else auto + [m],
                   add[1..], limit, drop);
    }
  }

  // A message more than 10000 ms older than a frame is in neither list after that frame and the next.
  lemma ExpiredAreGone(q: Queues, f: Frame, g: Frame, m: Msg)
    requires Settled(q) && q.frameTime <= f.now <= g.now && 10000 <= f.now && g.now < U64
    requires m.frame + 10000 < f.now
    ensures var q2 := FrameOf(FrameOf(q, f.now, f.uses, f.way), g.now, g.uses, g.way);
      m !in q2.auto && m !in q2.add
  {
    var q1 := FrameOf(q, f.now, f.uses, f.way);
    FrameSettles(q, f.now, f.uses, f.way);
    FrameSettles(q1, g.now, g.uses, g.way);
    assert m !in q1.auto;
    var u := Used(q1.(frameTime := g.now), g.uses);
    UsedMembers(q1.(frameTime := g.now), g.uses);
    UsedTime(q1.(frameTime := g.now), g.uses);
    assert m !in u.auto;
    ExpiredLeave(u.auto, u.add, g.now - 10, g.now - 10000);
    var all := Moved(u.auto, u.add, g.now - 10, g.now - 10000);
    ChosenMembers(all[..Taken(all, g.now - 10)], g.way, Requeued);
  }

  // ----- exactly when a pass leaves the order -----

  // The queued messages that sendAll moves to the back of m_autoSend: those not yet old
  function Kept(add: seq<Msg>, limit: nat): seq<Msg> {
    if add == [] then [] else (if add[0].frame >= limit then [add[0]] else []) + Kept(add[1..], limit)
  }

  // What the second loop leaves of m_autoSend
  function Rest(s: seq<Msg>, limit: nat): seq<Msg> { s[Taken(s, limit)..] }

  // Old messages in front are all taken; what is left is what was left before, and the kept ones.
  lemma TakenOld(m: Msg, s: seq<Msg>, limit: nat)
    requires m.frame < limit
    ensures Rest([m] + s, limit) == Rest(s, limit)
  {
    assert ([m] + s)[1..] == s;
  }

  lemma {:induction false} TakenThenKept(s: seq<Msg>, m: Msg, limit: nat)
    requires m.frame >= limit
    ensures Rest(s + [m], limit) == Rest(s, limit) + [m]
    decreases |s|
  {
    if s == [] {
      assert s + [m] == [m];
    } else {
      assert (s + [m])[1..] == s[1..] + [m] && (s + [m])[0] == s[0];
      if s[0].frame < limit {
        TakenThenKept(s[1..], m, limit);
      }
    }
  }

  lemma {:induction false} MovedRest(auto: seq<Msg>, add: seq<Msg>, limit: nat, drop: nat)
    requires drop <= limit
    ensures Rest(Moved(auto, add, limit, drop), limit) == Rest(auto, limit) + Kept(add, limit)
    decreases |add|
  {
    if add != [] {
      hide Rest;
      var m, rest := add[0], add[1..];
      if m.frame < drop {
        MovedRest(auto, rest, limit, drop);
      } else if limit > m.frame {
        MovedRest([m] + auto, rest, limit, drop);
        TakenOld(m, auto, limit);
      } else {
        MovedRest(auto + [m], rest, limit, drop);
        TakenThenKept(auto, m, limit);
        Regroup(Rest(auto, limit), m, Kept(rest, limit));
      }
    }
  }

  lemma Regroup(a: seq<Msg>, m: Msg, b: seq<Msg>)
    ensures (a + [m]) + b == a + ([m] + b)
  {
  }

  // What a pass leaves in m_autoSend
  lemma PassLeaves(q: Queues, way: nat -> Way)
    requires 10000 <= q.frameTime < U64
    ensures var limit := q.frameTime - 10;
      Pass(q, way).auto == Rest(q.auto, limit) + Kept(q.add, limit)
  {
    hide Moved, Taken, Chosen, Kept;
    MovedRest(q.auto, q.add, q.frameTime - 10, q.frameTime - 10000);
  }

  // ----- exactly what a pass sends, and what it drops -----

  // The queued messages of the ages in between: sendAll moves them to the front and sends them.
  function Middle(add: seq<Msg>, limit: nat, drop: nat): seq<Msg> {
    if add == [] then []
    else (if drop <= add[0].frame < limit then [add[0]] else []) + Middle(add[1..], limit, drop)
  }

  // What the second loop hands to Connection::send
  function Sent(q: Queues): seq<Msg>
    requires q.frameTime < U64
  {
    var limit := Minus(q.frameTime, 10);
    var all := Moved(q.auto, q.add, limit, Minus(q.frameTime, 10000));
    all[..Taken(all, limit)]
  }

  lemma {:induction false} ThreeAges(add: seq<Msg>, limit: nat, drop: nat)
    requires drop <= limit
    ensures multiset(add) ==
      multiset(Expired(add, drop)) + multiset(Middle(add, limit, drop)) + multiset(Kept(add, limit))
  {
    if add != [] {
      ThreeAges(add[1..], limit, drop);
      assert add == [add[0]] + add[1..];
    }
  }

  // A pass sends the old messages at the front of m_autoSend and the queued messages that are more than
  // 10 but not more than 10000 ms old: those and no others. What it drops is older than 10000 ms.
  lemma PassSends(q: Queues)
    requires 10000 <= q.frameTime < U64
    ensures var limit, drop := q.frameTime - 10, q.frameTime - 10000;
      multiset(Sent(q)) == multiset(q.auto[..Taken(q.auto, limit)]) + multiset(Middle(q.add, limit, drop))
  {
    hide Moved, Taken, Kept, Middle, Expired;
    var limit, drop := q.frameTime - 10, q.frameTime - 10000;
    var all := Moved(q.auto, q.add, limit, drop);
    MovedConserves(q.auto, q.add, limit, drop);
    MovedRest(q.auto, q.add, limit, drop);
    ThreeAges(q.add, limit, drop);
    CutConserves(all, Taken(all, limit));
    CutConserves(q.auto, Taken(q.auto, limit));
    assert multiset(Rest(all, limit)) == multiset(Rest(q.auto, limit)) + multiset(Kept(q.add, limit));
    Cancel(multiset(Sent(q)), multiset(Rest(q.auto, limit)), multiset(Kept(q.add, limit)),
      multiset(Expired(q.add, drop)), multiset(q.auto[..Taken(q.auto, limit)]), multiset(Middle(q.add, limit, drop)));
  }

  lemma Cancel(s: multiset<Msg>, r: multiset<Msg>, k: multiset<Msg>, e: multiset<Msg>, t: multiset<Msg>,
               m: multiset<Msg>)
    requires (s + (r + k)) + e == (t + r) + (e + m + k)
    ensures s == t + m
  {
    forall x: Msg ensures s[x] == (t + m)[x] {
      assert ((s + (r + k)) + e)[x] == ((t + r) + (e + m + k))[x];
    }
  }

  // The ages of what is dropped, sent and kept of m_addQueue
  lemma {:induction false} AgesOf(add: seq<Msg>, now: nat)
    requires 10000 <= now < U64
    ensures forall m :: m in Expired(add, now - 10000) <==> m in add && m.frame + 10000 < now
    ensures forall m :: m in Middle(add, now - 10, now - 10000) <==>
      m in add && m.frame + 10 < now && m.frame + 10000 >= now
    ensures forall m :: m in Kept(add, now - 10) <==> m in add && m.frame + 10 >= now
  {
    if add != [] {
      AgesOf(add[1..], now);
      assert add == [add[0]] + add[1..];
    }
  }

  // A queued message of such an age is sent, not dropped.
  lemma SentNotDropped(q: Queues, m: Msg)
    requires 10000 <= q.frameTime < U64 && m in q.add
    requires m.frame + 10 < q.frameTime && m.frame + 10000 >= q.frameTime
    ensures m in Sent(q) && m !in Expired(q.add, q.frameTime - 10000)
  {
    hide Sent, Middle, Expired, Kept;
    AgesOf(q.add, q.frameTime);
    PassSends(q);
    var limit, drop := q.frameTime - 10, q.frameTime - 10000;
    assert multiset(Middle(q.add, limit, drop))[m] > 0;
    assert multiset(Sent(q))[m] > 0;
  }

  lemma SortedConcat(a: seq<Msg>, b: seq<Msg>)
    requires Sorted(a)
    ensures Sorted(a + b) <==> Sorted(b) && (a != [] ==> forall m :: m in b ==> a[|a| - 1].frame <= m.frame)
  {
    if Sorted(a + b) {
      assert forall i :: 0 <= i < |b| ==> (a + b)[|a| + i] == b[i];
      forall i, j | 0 <= i < j < |b| ensures b[i].frame <= b[j].frame {
        assert (a + b)[|a| + i] == b[i] && (a + b)[|a| + j] == b[j];
      }
      if a != [] {
        forall m | m in b ensures a[|a| - 1].frame <= m.frame {
          var i :| 0 <= i < |b| && b[i] == m;
          assert (a + b)[|a| - 1] == a[|a| - 1] && (a + b)[|a| + i] == m;
        }
      }
    }
  }

  // A pass over an ordered m_autoSend leaves it ordered if and only if the kept messages were queued
  // in the order of their frames and none is older than the last message that remains.
  lemma OrderedExactly(q: Queues, way: nat -> Way)
    requires 10000 <= q.frameTime < U64 && Sorted(q.auto)
    ensures var limit := q.frameTime - 10;
      var rest, kept := Rest(q.auto, limit), Kept(q.add, limit);
      Sorted(Pass(q, way).auto) <==>
        Sorted(kept) && (rest != [] ==> forall m :: m in kept ==> rest[|rest| - 1].frame <= m.frame)
  {
    hide Pass, Kept;
    var limit := q.frameTime - 10;
    PassLeaves(q, way);
    SortedConcat(Rest(q.auto, limit), Kept(q.add, limit));
  }

  // Used outside a frame the pool loses its order: a message queued before the frame at 20000 ends
  // up behind a younger one, and is kept 11 ms after its own frame.
  lemma OutsideFramesUnordered(way: nat -> Way)
    ensures var q := Queues([Msg(0, 20000)], [Msg(1, 19995)], 20000);
      var q1 := Pass(q, way);
      var q2 := FrameOf(q1, 20006, [], way);
      Settled(q.(add := [])) && q1.auto == [Msg(0, 20000), Msg(1, 19995)] && !Sorted(q1.auto)
      && Msg(1, 19995) in q2.auto && Msg(1, 19995).frame + 10 < q2.frameTime
  {
    var q := Queues([Msg(0, 20000)], [Msg(1, 19995)], 20000);
    var all := Moved(q.auto, q.add, 19990, 10000);
    assert all == q.auto + q.add;
    assert Pass(q, way).auto == all;
    var q2 := FrameOf(Pass(q, way), 20006, [], way);
    assert q2.auto == all;
    assert q2.auto[1] == Msg(1, 19995);
  }
}
