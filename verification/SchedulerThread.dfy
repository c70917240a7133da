/** src/scheduler.cpp: the Scheduler's fields and critical sections, tied to SchedulerSpec. */
module Schedulers {
  import opened Wrappers
  import opened SchedulerSpec

  datatype ThreadState = RUNNING | CLOSING | TERMINATED

  lemma OnlyTop(queue: set<Event>, e: Event, top: Event)
    requires IsTop(queue + {e}, top)
    ensures (forall f :: f in queue ==> e.expiration < f.expiration) ==> top == e
  {
  }

  // While ids are unique, a fresh id is not active.
  lemma AddedIdIsNew(s: State, id: nat)
    requires Inv(s) && FreshId(s, id)
    ensures GivenId(s.lastEvent, id) != 0 && GivenId(s.lastEvent, id) !in s.ids
  {
    assert !HasId(s.queue, GivenId(s.lastEvent, id));
  }

  lemma FateOf(s: State, e: Event)
    requires Inv(s) && e in s.queue
    ensures e.serial < |s.status| && (e.id in s.ids <==> s.status[e.serial] == Pending)
  {
  }

  class Scheduler {
    var m_lastEvent: nat
    var m_eventIds: set<nat>
    var m_eventList: set<Event>
    var m_threadState: ThreadState
    ghost var wait: Wait
    ghost var status: seq<Status>
    ghost var adds: set<int>

    ghost function Value(): State
      reads this
    {
      State(m_eventList, m_eventIds, m_lastEvent, wait, status, adds)
    }

    constructor ()
      ensures Value() == START && m_threadState == RUNNING
    {
      m_lastEvent, m_eventIds, m_eventList, m_threadState := 0, {}, {}, RUNNING;
      wait, status, adds := Looking, [], {};
    }

    // addEvent() of a task made at `now`, which carries id 0 unless its creator chose one. The signal
    // wakes the thread when the new task is at the top of the queue. `serial` stands for the address
    // of the task.
    method AddEvent(id: nat, now: int, delay: nat, serial: nat) returns (eventId: nat, signal: bool)
      requires serial == |status|
      modifies this
      ensures m_threadState == old(m_threadState)
      ensures m_threadState != RUNNING ==> eventId == 0 && !signal && Value() == old(Value())
      ensures m_threadState == RUNNING ==> Value() == Added(old(Value()), id, now, delay)
      ensures m_threadState == RUNNING ==> eventId != 0 && eventId in m_eventIds
      ensures m_threadState == RUNNING ==>
        m_eventList == old(m_eventList) + {Event(eventId, now + (if delay < 50 then 50 else delay), serial)}
      ensures m_threadState == RUNNING && Inv(old(Value())) && old(FreshId(Value(), id)) ==>
        eventId !in old(m_eventIds) && Inv(Value())
      ensures signal ==> IsTop(m_eventList, Event(eventId, now + Delay(delay), serial))
      ensures m_threadState == RUNNING && (forall e :: e in old(m_eventList) ==> now + Delay(delay) < e.expiration) ==>
        signal
    {
      hide IsTop, Inv, FreshId;
      if Inv(Value()) && FreshId(Value(), id) {
        AddedIdIsNew(Value(), id);
        AddKeeps(Value(), id, now, delay);
      }
      eventId, signal := 0, false;
      if m_threadState == RUNNING {
        eventId := id;
        if eventId == 0 {
          if m_lastEvent >= 0xFFFF_FFFF {
            m_lastEvent := 0;
          }
          m_lastEvent := m_lastEvent + 1;
          eventId := m_lastEvent;
        }
        var task := Event(eventId, now + Delay(delay), serial);
        m_eventIds := m_eventIds + {eventId};
        m_eventList := m_eventList + {task};
        ghost var t := TopExists(m_eventList);
        var top: Event :| IsTop(m_eventList, top);
        OnlyTop(old(m_eventList), task, top);
        signal := top == task;
        status := status + [Pending];
        adds := adds + {now};
      }
    }

    method StopEvent(eventId: nat) returns (found: bool)
      modifies this`m_eventIds, this`status
      ensures Value() == StopState(old(Value()), eventId)
      ensures found <==> eventId != 0 && eventId in old(m_eventIds)
      ensures Inv(old(Value())) ==>
        (found <==> exists e :: e in m_eventList && e.id == eventId && old(status)[e.serial] == Pending)
    {
      if Inv(Value()) {
        StopsPendingOnly(Value(), eventId);
      }
      found := false;
      if eventId == 0 {
        return;
      }
      if eventId in m_eventIds {
        m_eventIds := m_eventIds - {eventId};
        status := Marked(status, m_eventList, eventId);
        found := true;
      }
    }

    // The critical section of schedulerThread after the wait. `action` is what timed_wait returned,
    // false after the untimed wait. A task with `run` goes to the front of the dispatcher's queue.
    method TakeEvent(action: bool) returns (task: Option<Event>, run: bool)
      requires !action && m_threadState != TERMINATED ==> m_eventList != {}
      modifies this`m_eventIds, this`m_eventList, this`wait, this`status
      ensures task.None? <==> action || m_threadState == TERMINATED
      ensures task == None ==> !run && Value() == old(Value()).(wait := Looking)
      ensures task.Some? ==> IsTop(old(m_eventList), task.value) && Value() == Popped(old(Value()), task.value)
      ensures task.Some? ==> (run <==> task.value.id in old(m_eventIds))
      ensures task.Some? && Inv(old(Value())) ==> (run <==> old(status)[task.value.serial] == Pending)
    {
      hide Inv;
      task, run := None, false;
      if !action && m_threadState != TERMINATED {
        ghost var t := TopExists(m_eventList);
        var top: Event :| IsTop(m_eventList, top);
        assert IsTop(m_eventList, top);
        if Inv(Value()) {
          FateOf(Value(), top);
        }
        task := Some(top);
        m_eventList := m_eventList - {top};
        if top.id in m_eventIds {
          run := true;
          m_eventIds := m_eventIds - {top.id};
          if top.serial < |status| {
            status := status[top.serial := Dispatched];
          }
        }
      }
      wait := Looking;
    }

    method Stop()
      modifies this`m_threadState
      ensures m_threadState == CLOSING
    {
      m_threadState := CLOSING;
    }
  }
}
