/** src/scheduler.cpp: delayed callbacks with ids, and the thread that hands them over. */
module SchedulerSpec {

  const MAX_ID := 0xFFFF_FFFF
  const MIN_TICKS := 50

  // A SchedulerTask in the queue. `serial` numbers the accepted events; it is not in the source.
  datatype Event = Event(id: nat, expiration: int, serial: nat)

  datatype Status = Pending | Stopped | Dispatched

  // What the scheduler thread is doing between two atomic steps.
  datatype Wait = Looking | ForSignal | Until(deadline: int)

  // The queue and the id set, and for every accepted event what has become of it. Only the least
  // element of the priority queue can be seen, so the queue is a set.
  datatype State = State(
    queue: set<Event>,
    ids: set<nat>,
    lastEvent: nat,
    wait: Wait,
    status: seq<Status>,
    adds: set<int>)            // history: the times of the adds since the thread last went to wait

  const START := State({}, {}, 0, Looking, [], {})

  // createSchedulerTask(): no delay is shorter than 50 ms.
  function Delay(delay: nat): (d: nat)
    ensures d >= MIN_TICKS && d >= delay && (delay >= MIN_TICKS ==> d == delay)
  {
    if delay < MIN_TICKS then MIN_TICKS else delay
  }

  // The id given to an event that has none.
  function NextId(last: nat): (id: nat)
    ensures last <= MAX_ID ==> 1 <= id <= MAX_ID
  {
    if last >= MAX_ID then 1 else last + 1
  }

  // What priority_queue::top() may return: the order of equal expirations is not defined.
  predicate IsTop(queue: set<Event>, e: Event) {
    e in queue && forall f :: f in queue ==> e.expiration <= f.expiration
  }

  lemma {:induction false} TopExists(queue: set<Event>) returns (e: Event)
    requires queue != {}
    ensures IsTop(queue, e)
  {
    e :| e in queue;
    if queue != {e} {
      var f := TopExists(queue - {e});
      if f.expiration < e.expiration { e := f; }
    }
  }

  function GivenId(last: nat, id: nat): nat { if id == 0 then NextId(last) else id }

  // addEvent() of a running scheduler; id 0 asks for a new one
  function Added(s: State, id: nat, now: int, delay: nat): State {
    var given := GivenId(s.lastEvent, id);
    s.(queue := s.queue + {Event(given, now + Delay(delay), |s.status|)},
       ids := s.ids + {given},
       lastEvent := if id == 0 then given else s.lastEvent,
       status := s.status + [Pending],
       adds := s.adds + {now})
  }

  // stopEvent(): true iff the id was active
  predicate Stops(ids: set<nat>, id: nat) { id != 0 && id in ids }

  // History: every queued event with that id is stopped.
  ghost function Marked(status: seq<Status>, queue: set<Event>, id: nat): (r: seq<Status>)
    ensures |r| == |status|
  {
    seq(|status|, n requires 0 <= n < |status| =>
      if exists e :: e in queue && e.id == id && e.serial == n then Stopped else status[n])
  }

  ghost function StopState(s: State, id: nat): State {
    if Stops(s.ids, id) then s.(ids := s.ids - {id}, status := Marked(s.status, s.queue, id)) else s
  }

  // The thread pops e; it is handed to the dispatcher exactly when its id is still active.
  function Popped(s: State, e: Event): State {
    var s1 := s.(queue := s.queue - {e}, wait := Looking);
    if e.id in s.ids then
      s1.(ids := s.ids - {e.id}, status := if e.serial < |s.status| then s.status[e.serial := Dispatched] else s.status)
    else s1
  }

  datatype Step =
    | Add(id: nat, delay: nat, now: int)  // addEvent(createSchedulerTask(delay, ...)) at `now`
    | Stop(id: nat)
    | BeginWait(top: Event)               // takes the lock and waits
    | Signalled                           // timed_wait returned true
    | WakeAndPop(e: Event, now: int)      // the untimed wait returned
    | TimeoutAndPop(e: Event, now: int)   // timed_wait returned false

  predicate Enabled(s: State, step: Step) {
    match step
    case Add(_, _, _) => true
    case Stop(_) => true
    case BeginWait(top) => s.wait == Looking && (s.queue != {} ==> IsTop(s.queue, top))
    case Signalled => s.wait.Until?
    case WakeAndPop(e, _) => s.wait == ForSignal && IsTop(s.queue, e)
    case TimeoutAndPop(e, now) => s.wait.Until? && now >= s.wait.deadline && IsTop(s.queue, e)
  }

  ghost function Next(s: State, step: Step): State {
    match step
    case Add(id, delay, now) => Added(s, id, now, delay)
    case Stop(id) => StopState(s, id)
    case BeginWait(top) => s.(wait := if s.queue == {} then ForSignal else Until(top.expiration), adds := {})
    case Signalled => s.(wait := Looking)
    case WakeAndPop(e, _) => Popped(s, e)
    case TimeoutAndPop(e, _) => Popped(s, e)
  }

  // ----- the invariant while ids are unique -----

  // The added event's id is not that of an event still in the queue.
  predicate FreshId(s: State, id: nat) {
    forall e :: e in s.queue ==> e.id != GivenId(s.lastEvent, id)
  }

  predicate Unique(queue: set<Event>) {
    forall e, f :: e in queue && f in queue && e != f ==> e.id != f.id && e.serial != f.serial
  }

  // Every queued event is pending or stopped, as its id tells.
  predicate Fates(queue: set<Event>, ids: set<nat>, status: seq<Status>) {
    forall e :: e in queue ==>
      e.id != 0 && e.serial < |status| && status[e.serial] == if e.id in ids then Pending else Stopped
  }

  ghost predicate HasSerial(queue: set<Event>, n: nat) { exists e :: e in queue && e.serial == n }
  ghost predicate HasId(queue: set<Event>, id: nat) { exists e :: e in queue && e.id == id }

  ghost predicate Inv(s: State) {
    && Unique(s.queue)
    && Fates(s.queue, s.ids, s.status)
    && (forall n :: 0 <= n < |s.status| && s.status[n] == Pending ==> HasSerial(s.queue, n))
    && (forall id :: id in s.ids ==> HasId(s.queue, id))
    && s.lastEvent <= MAX_ID
  }

  lemma AddKeeps(s: State, id: nat, now: int, delay: nat)
    requires Inv(s) && FreshId(s, id)
    ensures Inv(Added(s, id, now, delay))
  {
    hide Delay;
    var r := Added(s, id, now, delay);
    var given := Event(GivenId(s.lastEvent, id), now + Delay(delay), |s.status|);
    assert given in r.queue;
    forall n | 0 <= n < |r.status| && r.status[n] == Pending ensures HasSerial(r.queue, n) {
      if n < |s.status| {
        var e :| e in s.queue && e.serial == n;
        assert e in r.queue;
      }
    }
    forall x | x in r.ids ensures HasId(r.queue, x) {
      if x in s.ids {
        var e :| e in s.queue && e.id == x;
        assert e in r.queue;
      }
    }
  }

  lemma StopKeeps(s: State, id: nat)
    requires Inv(s)
    ensures Inv(StopState(s, id))
  {
    var r := StopState(s, id);
    if Stops(s.ids, id) {
      forall e | e in r.queue ensures r.status[e.serial] == if e.id in r.ids then Pending else Stopped {
        if e.id != id {
          assert forall f :: f in s.queue && f.id == id ==> f.serial != e.serial;
        }
      }
      forall n | 0 <= n < |r.status| && r.status[n] == Pending ensures HasSerial(r.queue, n) {
        assert s.status[n] == Pending;
      }
    }
  }

  lemma PopKeeps(s: State, e: Event)
    requires Inv(s) && e in s.queue
    ensures Inv(Popped(s, e))
  {
    var r := Popped(s, e);
    forall n | 0 <= n < |r.status| && r.status[n] == Pending ensures HasSerial(r.queue, n) {
      var f :| f in s.queue && f.serial == n;
      assert f in r.queue;
    }
    forall x | x in r.ids ensures HasId(r.queue, x) {
      var f :| f in s.queue && f.id == x;
      assert f in r.queue;
    }
  }

  lemma TopKeeps(s: State, e: Event)
    requires Inv(s) && IsTop(s.queue, e)
    ensures Inv(Popped(s, e))
  {
    hide Inv, Popped;
    PopKeeps(s, e);
  }

  lemma WaitKeeps(s: State, wait: Wait, adds: set<int>)
    requires Inv(s)
    ensures Inv(s.(wait := wait, adds := adds))
  {
  }

  // Unique ids and the fates of the queued events are kept exactly when an added id is fresh.
  lemma StepKeeps(s: State, step: Step)
    requires Inv(s) && Enabled(s, step)
    ensures Inv(Next(s, step)) <==> (step.Add? ==> FreshId(s, step.id))
  {
    hide Inv, FreshId, Added, StopState, Popped, IsTop;
    match step {
      case Add(id, delay, now) =>
        if FreshId(s, id) { AddKeeps(s, id, now, delay); } else { StaleBreaks(s, id, now, delay); }
      case Stop(id) => StopKeeps(s, id);
      case BeginWait(top) => WaitKeeps(s, if s.queue == {} then ForSignal else Until(top.expiration), {});
      case Signalled => WaitKeeps(s, Looking, s.adds);
      case WakeAndPop(e, _) => TopKeeps(s, e);
      case TimeoutAndPop(e, _) => TopKeeps(s, e);
    }
  }

  lemma StaleBreaks(s: State, id: nat, now: int, delay: nat)
    requires Inv(s) && !FreshId(s, id)
    ensures !Inv(Added(s, id, now, delay))
  {
    hide Delay;
    var e :| e in s.queue && e.id == GivenId(s.lastEvent, id);
    var r := Added(s, id, now, delay);
    var given := Event(GivenId(s.lastEvent, id), now + Delay(delay), |s.status|);
    assert e in r.queue && given in r.queue && e != given;
  }

  // ----- times -----

  ghost predicate MadeSince(adds: set<int>, e: Event) { exists t :: t in adds && t + MIN_TICKS <= e.expiration }

  // While the thread waits for a signal, every queued event was added since it went to wait; while it
  // waits until a deadline, some event is due by then. No id matters to this.
  ghost predicate Times(s: State) {
    && (s.wait == ForSignal ==> forall e :: e in s.queue ==> MadeSince(s.adds, e))
    && (s.wait.Until? ==> exists e :: e in s.queue && e.expiration <= s.wait.deadline)
  }

  lemma AddKeepsTimes(s: State, id: nat, now: int, delay: nat)
    requires Times(s)
    ensures Times(Added(s, id, now, delay))
  {
    var r := Added(s, id, now, delay);
    if s.wait == ForSignal {
      forall e | e in r.queue ensures MadeSince(r.adds, e) {
        if e in s.queue {
          var t :| t in s.adds && t + MIN_TICKS <= e.expiration;
          assert t in r.adds;
        } else {
          assert now in r.adds;
        }
      }
    }
    if s.wait.Until? {
      var e :| e in s.queue && e.expiration <= s.wait.deadline;
      assert e in r.queue;
    }
  }

  lemma StepKeepsTimes(s: State, step: Step)
    requires Times(s) && Enabled(s, step)
    ensures Times(Next(s, step))
  {
    if step.Add? {
      AddKeepsTimes(s, step.id, step.now, step.delay);
    }
  }

  predicate IsPop(step: Step) { step.WakeAndPop? || step.TimeoutAndPop? }

  // An event's fate: pending events become stopped or dispatched, and stay so.
  lemma FatesAreFinal(s: State, step: Step, n: nat)
    requires Inv(s) && Enabled(s, step) && n < |s.status|
    ensures n < |Next(s, step).status|
    ensures s.status[n] != Pending ==> Next(s, step).status[n] == s.status[n]
  {
    if step.Stop? && Stops(s.ids, step.id) && s.status[n] != Pending {
      assert forall e :: e in s.queue && e.id == step.id ==> s.status[e.serial] == Pending;
    }
  }

  // The popped event has the least expiration; it is handed over exactly when it is pending, and
  // a stopped one is dropped. After a timeout its time has come.
  lemma PopsTheRightEvent(s: State, step: Step)
    requires Inv(s) && Times(s) && Enabled(s, step) && IsPop(step)
    ensures forall f :: f in s.queue ==> step.e.expiration <= f.expiration
    ensures step.e.serial < |s.status| && step.e !in Next(s, step).queue
    ensures step.e.id in s.ids <==> s.status[step.e.serial] == Pending
    ensures Next(s, step).status[step.e.serial] == (if s.status[step.e.serial] == Pending then Dispatched else Stopped)
    ensures step.TimeoutAndPop? ==> step.e.expiration <= step.now
  {
  }

  // stopEvent returns true exactly for the id of a pending event, which is stopped by it.
  lemma StopsPendingOnly(s: State, id: nat)
    requires Inv(s)
    ensures Stops(s.ids, id) <==> exists e :: e in s.queue && e.id == id && s.status[e.serial] == Pending
    ensures forall e :: e in s.queue && e.id == id ==> StopState(s, id).status[e.serial] == Stopped
  {
    if Stops(s.ids, id) {
      assert HasId(s.queue, id);
    }
  }

  // ----- runs -----

  ghost predicate StepOf(s: State, step: Step, s': State) { Enabled(s, step) && s' == Next(s, step) }

  ghost predicate IsRun(ss: seq<State>, steps: seq<Step>) {
    && |ss| == |steps| + 1 && ss[0] == START
    && forall k :: 0 <= k < |steps| ==> StepOf(ss[k], steps[k], ss[k + 1])
  }

  // No id is added while an event with that id is queued.
  ghost predicate FreshRun(ss: seq<State>, steps: seq<Step>)
    requires |ss| == |steps| + 1
  {
    forall k :: 0 <= k < |steps| && steps[k].Add? ==> FreshId(ss[k], steps[k].id)
  }

  lemma {:induction false} RunInv(ss: seq<State>, steps: seq<Step>, k: nat)
    requires IsRun(ss, steps) && FreshRun(ss, steps) && k < |ss|
    ensures Inv(ss[k])
  {
    if k > 0 {
      RunInv(ss, steps, k - 1);
      hide Inv, Enabled, FreshId, Next;
      assert StepOf(ss[k - 1], steps[k - 1], ss[k]);
      StepKeeps(ss[k - 1], steps[k - 1]);
    }
  }

  // Over a whole run each accepted event is pending, stopped or dispatched, and one that was stopped
  // is never dispatched, nor the other way round.
  lemma {:induction false} StoppedOrDispatched(ss: seq<State>, steps: seq<Step>, a: nat, b: nat, n: nat)
    requires IsRun(ss, steps) && FreshRun(ss, steps) && a <= b < |ss| && n < |ss[a].status|
    ensures n < |ss[b].status|
    ensures ss[a].status[n] != Pending ==> ss[b].status[n] == ss[a].status[n]
    ensures ss[b].status[n] == Pending ==> HasSerial(ss[b].queue, n)
    decreases b
  {
    RunInv(ss, steps, b);
    if a < b {
      StoppedOrDispatched(ss, steps, a, b - 1, n);
      RunInv(ss, steps, b - 1);
      hide Inv, Enabled, FreshId, Next;
      assert StepOf(ss[b - 1], steps[b - 1], ss[b]);
      FatesAreFinal(ss[b - 1], steps[b - 1], n);
    }
  }

  lemma {:induction false} RunTimes(ss: seq<State>, steps: seq<Step>, k: nat)
    requires IsRun(ss, steps) && k < |ss|
    ensures Times(ss[k])
  {
    if k > 0 {
      RunTimes(ss, steps, k - 1);
      hide Times, Enabled, Next;
      assert StepOf(ss[k - 1], steps[k - 1], ss[k]);
      StepKeepsTimes(ss[k - 1], steps[k - 1]);
    }
  }

  // In every run, whatever the ids: what a timeout pops is due.
  lemma TimeoutIsDue(ss: seq<State>, steps: seq<Step>, k: nat)
    requires IsRun(ss, steps) && k < |steps| && steps[k].TimeoutAndPop?
    ensures steps[k].e.expiration <= steps[k].now
  {
    RunTimes(ss, steps, k);
    assert StepOf(ss[k], steps[k], ss[k + 1]);
  }

  // In every run, whatever the ids: an event is popped early only by a thread that found the queue
  // empty when it went to wait; and less than 50 ms after every add made since then, always by such
  // a thread.
  lemma EarlyExactly(ss: seq<State>, steps: seq<Step>, k: nat)
    requires IsRun(ss, steps) && k < |steps| && IsPop(steps[k])
    ensures steps[k].now < steps[k].e.expiration ==> ss[k].wait == ForSignal
    ensures (forall t :: t in ss[k].adds ==> steps[k].now < t + MIN_TICKS) ==>
      (steps[k].now < steps[k].e.expiration <==> ss[k].wait == ForSignal)
  {
    RunTimes(ss, steps, k);
    assert StepOf(ss[k], steps[k], ss[k + 1]);
    if ss[k].wait == ForSignal {
      assert MadeSince(ss[k].adds, steps[k].e);
    }
  }

  // The thread waits for a signal exactly when it found the queue empty.
  lemma WaitsForSignal(ss: seq<State>, steps: seq<Step>, k: nat)
    requires IsRun(ss, steps) && k < |steps| && steps[k].BeginWait?
    ensures ss[k + 1].wait == ForSignal <==> ss[k].queue == {}
    ensures ss[k + 1].adds == {}
  {
    assert StepOf(ss[k], steps[k], ss[k + 1]);
  }

  // Otherwise it waits until the least expiration in the queue.
  lemma WaitsForTheNext(ss: seq<State>, steps: seq<Step>, k: nat)
    requires IsRun(ss, steps) && k < |steps| && steps[k].BeginWait? && ss[k].queue != {}
    ensures ss[k + 1].wait.Until?
    ensures exists e :: e in ss[k].queue && e.expiration == ss[k + 1].wait.deadline
    ensures forall e :: e in ss[k].queue ==> ss[k + 1].wait.deadline <= e.expiration
  {
    assert StepOf(ss[k], steps[k], ss[k + 1]);
  }

  // An event is due as long after its making as asked for, but not less than 50 ms; it is queued with
  // that time, and pops then and not before, as the results above say.
  lemma DueWhenAsked(ss: seq<State>, steps: seq<Step>, k: nat)
    requires IsRun(ss, steps) && k < |steps| && steps[k].Add?
    ensures var due := steps[k].now + (if steps[k].delay < 50 then 50 else steps[k].delay);
      exists e :: e in ss[k + 1].queue && e.serial == |ss[k].status| && e.expiration == due
    ensures ss[k + 1].status == ss[k].status + [Pending]
  {
    assert StepOf(ss[k], steps[k], ss[k + 1]);
    var step := steps[k];
    var e := Event(GivenId(ss[k].lastEvent, step.id), step.now + Delay(step.delay), |ss[k].status|);
    assert e in ss[k + 1].queue;
  }

  // ----- generated ids -----

  // m_lastEvent after n generated ids
  function LastAfter(n: nat): nat {
    if n == 0 then 0 else NextId(LastAfter(n - 1))
  }

  // Generated ids count 1, 2, ..., 2^32 - 1 and start again; none is 0.
  lemma {:induction false} GeneratedId(n: nat)
    requires n > 0
    ensures LastAfter(n) == (n - 1) % MAX_ID + 1
    ensures 1 <= LastAfter(n) <= MAX_ID
  {
    if n > 1 {
      GeneratedId(n - 1);
      NextRemainder(n - 2);
    }
  }

  lemma NextRemainder(k: nat)
    ensures (k + 1) % MAX_ID == if k % MAX_ID == MAX_ID - 1 then 0 else k % MAX_ID + 1
  {
  }

  // Two generated ids are equal exactly when a multiple of 2^32 - 1 ids lies between them.
  lemma SameId(n: nat, m: nat)
    requires 0 < n <= m
    ensures LastAfter(n) == LastAfter(m) <==> (m - n) % MAX_ID == 0
  {
    hide LastAfter;
    GeneratedId(n);
    GeneratedId(m);
    SameRemainder(n - 1, m - 1);
    assert (m - 1) - (n - 1) == m - n;
  }

  lemma SameRemainder(x: nat, y: nat)
    requires x <= y
    ensures x % MAX_ID == y % MAX_ID <==> (y - x) % MAX_ID == 0
  {
  }

  // How many of the first k steps generate an id
  function Generated(steps: seq<Step>, k: nat): (n: nat)
    requires k <= |steps|
    ensures n <= k
  {
    if k == 0 then 0
    else Generated(steps, k - 1) + if steps[k - 1].Add? && steps[k - 1].id == 0 then 1 else 0
  }

  // m_lastEvent of a run is that counter.
  lemma {:induction false} LastEventCounts(ss: seq<State>, steps: seq<Step>, k: nat)
    requires IsRun(ss, steps) && k <= |steps|
    ensures ss[k].lastEvent == LastAfter(Generated(steps, k))
  {
    if k > 0 {
      LastEventCounts(ss, steps, k - 1);
      assert StepOf(ss[k - 1], steps[k - 1], ss[k]);
      hide LastAfter, Enabled, IsRun;
      if steps[k - 1].Add? && steps[k - 1].id == 0 {
        OneMore(Generated(steps, k - 1));
      }
    }
  }

  lemma OneMore(n: nat)
    ensures LastAfter(n + 1) == NextId(LastAfter(n))
  {
  }

  // The ids that addEvent generates in a run are never 0, are distinct within any 2^32 - 1
  // consecutive ones, and no further.
  lemma IdsRepeatAfterAll(ss: seq<State>, steps: seq<Step>, i: nat, j: nat)
    requires IsRun(ss, steps) && i < j < |steps|
    requires steps[i].Add? && steps[j].Add? && steps[i].id == 0 == steps[j].id
    ensures GivenId(ss[i].lastEvent, 0) != 0
    ensures var between := Generated(steps, j) - Generated(steps, i);
      && (0 < between < MAX_ID ==> GivenId(ss[i].lastEvent, 0) != GivenId(ss[j].lastEvent, 0))
      && (between == MAX_ID ==> GivenId(ss[i].lastEvent, 0) == GivenId(ss[j].lastEvent, 0))
  {
    hide IsRun, LastAfter, Generated, NextId;
    LastEventCounts(ss, steps, i);
    LastEventCounts(ss, steps, j);
    var n, m := Generated(steps, i), Generated(steps, j);
    GeneratedGrows(steps, i, j);
    OneMore(n);
    OneMore(m);
    GeneratedId(n + 1);
    SameId(n + 1, m + 1);
    if m - n <= MAX_ID {
      SmallRemainder(m - n);
    }
    assert (m + 1) - (n + 1) == m - n;
  }

  lemma SmallRemainder(d: nat)
    requires d <= MAX_ID
    ensures d % MAX_ID == if d == MAX_ID then 0 else d
  {
  }

  lemma {:induction false} GeneratedGrows(steps: seq<Step>, i: nat, j: nat)
    requires i < j <= |steps|
    ensures Generated(steps, i) <= Generated(steps, j)
    ensures steps[i].Add? && steps[i].id == 0 ==> Generated(steps, i) < Generated(steps, j)
  {
    if i + 1 < j {
      GeneratedGrows(steps, i, j - 1);
    }
  }

  // ----- runs in which every id is generated, as all of the repository's are -----

  predicate AllGenerated(steps: seq<Step>) { forall k :: 0 <= k < |steps| && steps[k].Add? ==> steps[k].id == 0 }

  // The n-th accepted event bears the n-th generated id.
  ghost predicate Numbered(s: State) {
    && s.lastEvent == LastAfter(|s.status|)
    && forall e :: e in s.queue ==> e.serial < |s.status| && e.id == LastAfter(e.serial + 1)
  }

  lemma {:induction false} RunNumbered(ss: seq<State>, steps: seq<Step>, k: nat)
    requires IsRun(ss, steps) && AllGenerated(steps) && k <= |steps|
    ensures Numbered(ss[k])
  {
    if k > 0 {
      RunNumbered(ss, steps, k - 1);
      assert StepOf(ss[k - 1], steps[k - 1], ss[k]);
      StepNumbered(ss[k - 1], steps[k - 1]);
    }
  }

  lemma StepNumbered(s: State, step: Step)
    requires Numbered(s) && Enabled(s, step) && (step.Add? ==> step.id == 0)
    ensures Numbered(Next(s, step))
  {
    hide LastAfter, IsTop;
    OneMore(|s.status|);
  }

  // A generated id is fresh exactly when no queued event is a multiple of 2^32 - 1 adds old.
  lemma FreshExactly(s: State)
    requires Numbered(s)
    ensures FreshId(s, 0) <==> forall e :: e in s.queue ==> (|s.status| - e.serial) % MAX_ID != 0
  {
    hide LastAfter;
    OneMore(|s.status|);
    forall e | e in s.queue
      ensures e.id == GivenId(s.lastEvent, 0) <==> (|s.status| - e.serial) % MAX_ID == 0
    {
      SameId(e.serial + 1, |s.status| + 1);
    }
  }

  // No event stays queued across 2^32 - 1 adds.
  ghost predicate NoneStays(ss: seq<State>, steps: seq<Step>)
    requires |ss| == |steps| + 1
  {
    forall k, e :: 0 <= k < |steps| && steps[k].Add? && e in ss[k].queue ==> |ss[k].status| - e.serial < MAX_ID
  }

  lemma GeneratedRunIsFresh(ss: seq<State>, steps: seq<Step>)
    requires IsRun(ss, steps) && AllGenerated(steps) && NoneStays(ss, steps)
    ensures FreshRun(ss, steps)
  {
    forall k | 0 <= k < |steps| && steps[k].Add? ensures FreshId(ss[k], steps[k].id) {
      RunNumbered(ss, steps, k);
      hide FreshId, IsRun;
      FreshExactly(ss[k]);
    }
  }

  // So in these runs the fates need no assumption on ids.
  lemma GeneratedRunFates(ss: seq<State>, steps: seq<Step>, a: nat, b: nat, n: nat)
    requires IsRun(ss, steps) && AllGenerated(steps) && NoneStays(ss, steps)
    requires a <= b < |ss| && n < |ss[a].status|
    ensures n < |ss[b].status|
    ensures ss[a].status[n] != Pending ==> ss[b].status[n] == ss[a].status[n]
    ensures ss[b].status[n] == Pending ==> HasSerial(ss[b].queue, n)
  {
    hide IsRun, FreshRun, NoneStays, AllGenerated;
    GeneratedRunIsFresh(ss, steps);
    StoppedOrDispatched(ss, steps, a, b, n);
  }

  // ... in particular when there are fewer than 2^32 - 1 adds.
  lemma ShortRun(ss: seq<State>, steps: seq<Step>)
    requires IsRun(ss, steps) && |ss[|ss| - 1].status| <= MAX_ID
    ensures NoneStays(ss, steps)
  {
    forall k, e | 0 <= k < |steps| && steps[k].Add? && e in ss[k].queue
      ensures |ss[k].status| - e.serial < MAX_ID
    {
      assert StepOf(ss[k], steps[k], ss[k + 1]);
      StatusGrows(ss, steps, k + 1, |ss| - 1);
    }
  }

  lemma {:induction false} StatusGrows(ss: seq<State>, steps: seq<Step>, i: nat, j: nat)
    requires IsRun(ss, steps) && i <= j < |ss|
    ensures |ss[i].status| <= |ss[j].status|
  {
    if i < j {
      StatusGrows(ss, steps, i, j - 1);
      assert StepOf(ss[j - 1], steps[j - 1], ss[j]);
    }
  }
}
