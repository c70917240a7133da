/** src/scheduler.cpp: exactly when an id that is used again makes the scheduler go wrong. */
module SchedulerIds {
  import opened SchedulerSpec

  // Popping e now drops a pending event, or runs one whose stopEvent returned true.
  predicate GoesWrong(s: State, e: Event) {
    && e in s.queue && e.serial < |s.status|
    && s.status[e.serial] == (if e.id in s.ids then Stopped else Pending)
  }

  lemma WhatGoesWrong(s: State, e: Event)
    requires GoesWrong(s, e)
    ensures e !in Popped(s, e).queue
    ensures s.status[e.serial] == Pending ==> Popped(s, e).status == s.status
    ensures s.status[e.serial] == Stopped ==> Popped(s, e).status[e.serial] == Dispatched
  {
  }

  // Events popped one after the other, each a top of the queue
  predicate TopPops(s: State, es: seq<Event>)
    decreases |es|
  {
    es == [] || (IsTop(s.queue, es[0]) && TopPops(Popped(s, es[0]), es[1..]))
  }

  predicate Misfires(s: State, es: seq<Event>)
    decreases |es|
  {
    es != [] && (GoesWrong(s, es[0]) || Misfires(Popped(s, es[0]), es[1..]))
  }

  ghost predicate CanMisfire(s: State) { exists es :: TopPops(s, es) && Misfires(s, es) }

  lemma FirstMisfires(s: State, e: Event)
    requires IsTop(s.queue, e) && GoesWrong(s, e)
    ensures CanMisfire(s)
  {
    assert TopPops(s, [e]) && Misfires(s, [e]);
  }

  lemma LaterMisfires(s: State, e: Event)
    requires IsTop(s.queue, e) && CanMisfire(Popped(s, e))
    ensures CanMisfire(s)
  {
    var es :| TopPops(Popped(s, e), es) && Misfires(Popped(s, e), es);
    hide IsTop, GoesWrong, Popped;
    assert ([e] + es)[1..] == es;
    assert TopPops(s, [e] + es) && Misfires(s, [e] + es);
  }

  // ----- nothing goes wrong -----

  ghost predicate Covered(s: State, e: Event) {
    exists g :: g in s.queue && g.id == e.id && g.expiration < e.expiration
      && g.serial < |s.status| && s.status[g.serial] == Pending
  }

  // Every queued event is pending or stopped; a pending one's id is active and its own; a stopped one
  // whose id is active is behind a pending one with that id.
  ghost predicate Sound(s: State) {
    && (forall e :: e in s.queue ==> e.serial < |s.status| && s.status[e.serial] != Dispatched)
    && (forall e, f :: e in s.queue && f in s.queue && e != f ==> e.serial != f.serial)
    && (forall e :: e in s.queue && s.status[e.serial] == Pending ==> e.id in s.ids)
    && (forall e, f :: e in s.queue && f in s.queue && e != f && e.id == f.id ==>
          s.status[e.serial] == Stopped || s.status[f.serial] == Stopped)
    && (forall e :: e in s.queue && s.status[e.serial] == Stopped && e.id in s.ids ==> Covered(s, e))
  }

  lemma SoundTop(s: State, e: Event)
    requires Sound(s) && IsTop(s.queue, e)
    ensures !GoesWrong(s, e)
  {
  }

  lemma SoundPopped(s: State, e: Event)
    requires Sound(s) && IsTop(s.queue, e)
    ensures Sound(Popped(s, e))
  {
    var r := Popped(s, e);
    SoundTop(s, e);
    forall f | f in r.queue && r.status[f.serial] == Stopped && f.id in r.ids ensures Covered(r, f) {
      var g :| g in s.queue && g.id == f.id && g.expiration < f.expiration
        && g.serial < |s.status| && s.status[g.serial] == Pending;
      assert g in r.queue;
    }
  }

  lemma {:induction false} SoundNeverMisfires(s: State, es: seq<Event>)
    requires Sound(s) && TopPops(s, es)
    ensures !Misfires(s, es)
    decreases |es|
  {
    if es != [] {
      SoundTop(s, es[0]);
      SoundPopped(s, es[0]);
      SoundNeverMisfires(Popped(s, es[0]), es[1..]);
    }
  }

  // ----- something goes wrong -----

  // A pending event whose id is not active will be dropped.
  lemma {:induction false} WillBeDropped(s: State, e: Event)
    requires e in s.queue && e.serial < |s.status| && s.status[e.serial] == Pending && e.id !in s.ids
    requires forall f :: f in s.queue && f != e ==> f.serial != e.serial
    ensures CanMisfire(s)
    decreases |s.queue|
  {
    var t := TopExists(s.queue);
    if t == e {
      FirstMisfires(s, e);
    } else {
      hide CanMisfire;
      WillBeDropped(Popped(s, t), e);
      LaterMisfires(s, t);
    }
  }

  // A stopped event whose id is active, and before which no other event with that id comes, will run.
  lemma {:induction false} WillBeRun(s: State, e: Event)
    requires e in s.queue && e.serial < |s.status| && s.status[e.serial] == Stopped && e.id in s.ids
    requires forall f :: f in s.queue && f != e ==> f.serial != e.serial
    requires forall f :: f in s.queue && f.id == e.id ==> e.expiration <= f.expiration
    ensures CanMisfire(s)
    decreases |s.queue|
  {
    var t := TopExists(s.queue);
    if e.expiration <= t.expiration {
      FirstMisfires(s, e);
    } else {
      hide CanMisfire;
      WillBeRun(Popped(s, t), e);
      LaterMisfires(s, t);
    }
  }

  // Of two pending events with the same id, the one that is popped second will be dropped.
  lemma {:induction false} OneWillBeDropped(s: State, e: Event, f: Event)
    requires e in s.queue && f in s.queue && e != f && e.id == f.id && e.id in s.ids
    requires e.serial < |s.status| && s.status[e.serial] == Pending
    requires f.serial < |s.status| && s.status[f.serial] == Pending
    requires forall g, h :: g in s.queue && h in s.queue && g != h ==> g.serial != h.serial
    ensures CanMisfire(s)
    decreases |s.queue|
  {
    var t := TopExists(s.queue);
    hide CanMisfire;
    if t.id == e.id {
      WillBeDropped(Popped(s, t), if t == e then f else e);
    } else {
      OneWillBeDropped(Popped(s, t), e, f);
    }
    LaterMisfires(s, t);
  }

  // ----- the condition -----

  // A queued event that bears the added id, and whose stop has not been asked for, or which comes
  // before the added event or may do so
  predicate Clashes(s: State, e: Event, given: nat, expiration: int) {
    e in s.queue && e.id == given && (given in s.ids || e.expiration <= expiration)
  }

  ghost predicate Clashing(s: State, given: nat, expiration: int) {
    exists e :: Clashes(s, e, given, expiration)
  }

  lemma AddedSound(s: State, id: nat, now: int, delay: nat)
    requires Inv(s)
    requires !Clashing(s, GivenId(s.lastEvent, id), now + Delay(delay))
    ensures Sound(Added(s, id, now, delay))
  {
    hide Delay;
    var r := Added(s, id, now, delay);
    var given := Event(GivenId(s.lastEvent, id), now + Delay(delay), |s.status|);
    forall e | e in s.queue && e.id == given.id
      ensures s.status[e.serial] == Stopped && given.expiration < e.expiration && e.id !in s.ids
    {
      assert !Clashes(s, e, given.id, given.expiration);
    }
    hide Clashing, Clashes;
    forall e | e in r.queue && r.status[e.serial] == Stopped && e.id in r.ids ensures Covered(r, e) {
      assert given in r.queue && r.status[given.serial] == Pending;
    }
  }

  lemma AddedClashes(s: State, id: nat, now: int, delay: nat, e: Event)
    requires Inv(s) && Clashes(s, e, GivenId(s.lastEvent, id), now + Delay(delay))
    ensures CanMisfire(Added(s, id, now, delay))
  {
    hide Delay, CanMisfire;
    var r := Added(s, id, now, delay);
    var given := Event(GivenId(s.lastEvent, id), now + Delay(delay), |s.status|);
    assert given in r.queue && e in r.queue && e != given;
    if e.id in s.ids {
      OneWillBeDropped(r, e, given);
    } else {
      WillBeRun(r, e);
    }
  }

  // After an add, some order of pops drops a pending event or runs a stopped one if and only if a
  // queued event bears the added id and is still active, or was stopped but comes no later than the
  // added one.
  lemma RepeatedIdExactly(s: State, id: nat, now: int, delay: nat)
    requires Inv(s)
    ensures CanMisfire(Added(s, id, now, delay)) <==>
      Clashing(s, GivenId(s.lastEvent, id), now + Delay(delay))
  {
    hide Inv, Added, Delay, Clashes;
    var given, expiration := GivenId(s.lastEvent, id), now + Delay(delay);
    if Clashing(s, given, expiration) {
      var e :| Clashes(s, e, given, expiration);
      AddedClashes(s, id, now, delay, e);
    } else {
      AddedSound(s, id, now, delay);
      forall es | TopPops(Added(s, id, now, delay), es) ensures !Misfires(Added(s, id, now, delay), es) {
        SoundNeverMisfires(Added(s, id, now, delay), es);
      }
    }
  }

  // Both ways: the second of two active namesakes is dropped; a stopped event runs in the name of
  // the one that took over its id.
  lemma RepeatedIdExamples()
    ensures var s := Added(START, 1, 50, 50);
      var first := Event(1, 100, 0);
      && Inv(s) && Clashes(s, first, 1, 200) && CanMisfire(Added(s, 1, 150, 50))
      && var t := Added(StopState(s, 1), 1, 150, 50);
         IsTop(t.queue, first) && t.status[0] == Stopped && Popped(t, first).status[0] == Dispatched
  {
    StartKeeps();
    AddKeeps(START, 1, 50, 50);
    var s := Added(START, 1, 50, 50);
    var first := Event(1, 100, 0);
    assert s.queue == {first} && first in s.queue;
    assert Clashes(s, first, 1, 200) && Clashing(s, 1, 200);
    RepeatedIdExactly(s, 1, 150, 50);
    assert Marked(s.status, s.queue, 1)[0] == Stopped;
    assert Added(StopState(s, 1), 1, 150, 50).queue == {first, Event(1, 200, 1)};
  }

  lemma StartKeeps()
    ensures Inv(START) && FreshId(START, 1)
  {
  }
}
