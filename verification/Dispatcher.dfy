/** src/tasks.cpp: the dispatcher's queue. Tasks are added at the back, or at the front. */
module Dispatchers {
  import opened Wrappers

  datatype ThreadState = RUNNING | CLOSING | TERMINATED

  class Dispatcher<T> {
    var m_taskList: seq<T>
    var m_threadState: ThreadState

    constructor ()
      ensures m_taskList == [] && m_threadState == RUNNING
    {
      m_taskList, m_threadState := [], RUNNING;
    }

    // addTask(): a task added to a dispatcher that is stopping is deleted.
    method AddTask(task: T, front: bool) returns (signal: bool)
      modifies this`m_taskList
      ensures m_threadState != RUNNING ==> m_taskList == old(m_taskList)
      ensures m_threadState == RUNNING && front ==> m_taskList == [task] + old(m_taskList)
      ensures m_threadState == RUNNING && !front ==> m_taskList == old(m_taskList) + [task]
      ensures signal <==> m_threadState == RUNNING && old(m_taskList) == []
    {
      signal := false;
      if m_threadState == RUNNING {
        signal := |m_taskList| == 0;
        if front {
          m_taskList := [task] + m_taskList;
        } else {
          m_taskList := m_taskList + [task];
        }
      }
    }

    // What one turn of tasksThread does under the lock, once there is something to take.
    method TakeTask() returns (task: Option<T>)
      modifies this`m_taskList
      ensures m_threadState == TERMINATED || old(m_taskList) == [] ==>
        task == None && m_taskList == old(m_taskList)
      ensures m_threadState != TERMINATED && old(m_taskList) != [] ==>
        task == Some(old(m_taskList)[0]) && m_taskList == old(m_taskList)[1..]
    {
      task := None;
      if |m_taskList| > 0 && m_threadState != TERMINATED {
        task := Some(m_taskList[0]);
        m_taskList := m_taskList[1..];
      }
    }

    method Stop()
      modifies this`m_threadState
      ensures m_threadState == CLOSING
    {
      m_threadState := CLOSING;
    }
  }

  function Put<T>(list: seq<T>, task: T, front: bool): seq<T> {
    if front then [task] + list else list + [task]
  }

  // ----- order -----

  // A task together with the end of the queue it was added at.
  datatype Entry<T> = Entry(task: T, front: bool)

  datatype Op<T> = Add(entry: Entry<T>) | Take

  datatype Run<T> = Run(queue: seq<Entry<T>>, taken: seq<Entry<T>>)

  function Execute<T>(ops: seq<Op<T>>): Run<T> {
    if ops == [] then Run([], []) else After(Execute(ops[..|ops| - 1]), ops[|ops| - 1])
  }

  function After<T>(r: Run<T>, op: Op<T>): Run<T> {
    match op
    case Add(e) => r.(queue := Put(r.queue, e, e.front))
    case Take => if r.queue == [] then r else Run(r.queue[1..], r.taken + [r.queue[0]])
  }

  function EntryOf<T>(op: Op<T>): seq<Entry<T>> { if op.Add? then [op.entry] else [] }

  // The entries added at the given end, in their order in s.
  function Side<T>(s: seq<Entry<T>>, front: bool): seq<Entry<T>> {
    if s == [] then [] else (if s[0].front == front then [s[0]] else []) + Side(s[1..], front)
  }

  function AddedEntries<T>(ops: seq<Op<T>>): seq<Entry<T>> {
    if ops == [] then []
    else AddedEntries(ops[..|ops| - 1]) + EntryOf(ops[|ops| - 1])
  }

  lemma {:induction false} SideConcat<T>(a: seq<Entry<T>>, b: seq<Entry<T>>, front: bool)
    ensures Side(a + b, front) == Side(a, front) + Side(b, front)
  {
    if a == [] {
      assert a + b == b;
    } else {
      SideConcat(a[1..], b, front);
      SideFirst(a[0], a[1..], front);
      SideFirst(a[0], a[1..] + b, front);
      hide Side;
      assert a + b == [a[0]] + (a[1..] + b) && a == [a[0]] + a[1..];
    }
  }

  lemma SideFirst<T>(e: Entry<T>, s: seq<Entry<T>>, front: bool)
    ensures Side([e] + s, front) == (if e.front == front then [e] else []) + Side(s, front)
  {
    assert ([e] + s)[1..] == s;
  }

  // Taking the head of a queue moves it from the front of one list to the end of the other.
  lemma TakeMoves<T>(taken: seq<T>, queue: seq<T>)
    requires queue != []
    ensures (taken + [queue[0]]) + queue[1..] == taken + queue
  {
  }

  lemma OpKeepsOrder<T>(r: Run<T>, op: Op<T>)
    ensures Side(After(r, op).taken, false) + Side(After(r, op).queue, false) ==
      Side(r.taken, false) + Side(r.queue, false) + Side(EntryOf(op), false)
  {
    match op {
      case Add(e) =>
        if e.front {
          SideConcat([e], r.queue, false);
        } else {
          SideConcat(r.queue, [e], false);
        }
      case Take =>
        if r.queue != [] {
          TakeMoves(r.taken, r.queue);
          SideConcat(r.taken + [r.queue[0]], r.queue[1..], false);
          SideConcat(r.taken, r.queue, false);
        }
    }
  }

  // Whatever is pushed to the front in between, the tasks added at the back are taken in the order
  // they were added: those taken, followed by those still queued, are exactly those added.
  lemma {:induction false} BackTasksInOrder<T>(ops: seq<Op<T>>)
    ensures Side(Execute(ops).taken, false) + Side(Execute(ops).queue, false) == Side(AddedEntries(ops), false)
  {
    hide Side, After, EntryOf;
    if ops != [] {
      var less, last := ops[..|ops| - 1], ops[|ops| - 1];
      BackTasksInOrder(less);
      OpKeepsOrder(Execute(less), last);
      SideConcat(AddedEntries(less), EntryOf(last), false);
    } else {
      EmptySide<T>();
    }
  }

  lemma EmptySide<T>()
    ensures Side<T>([], false) == []
  {
  }

  lemma {:induction false} BackAdds<T>(ops: seq<Op<T>>, later: seq<Op<T>>)
    requires forall op :: op in later ==> op.Add? && !op.entry.front
    ensures Execute(ops + later) == Run(Execute(ops).queue + AddedEntries(later), Execute(ops).taken)
  {
    hide Execute, AddedEntries;
    if later == [] {
      NoneAdded<T>();
      assert ops + later == ops && Execute(ops).queue + [] == Execute(ops).queue;
    } else {
      var less, last := later[..|later| - 1], later[|later| - 1];
      assert last in later;
      BackAdds(ops, less);
      ExecuteNext(ops + less, last);
      AddedNext(less, last);
      Regroup(ops, less, last);
      Regroup(Execute(ops).queue, AddedEntries(less), last.entry);
      assert less + [last] == later;
    }
  }

  lemma NoneAdded<T>()
    ensures AddedEntries<T>([]) == []
  {
  }

  lemma AddedNext<T>(ops: seq<Op<T>>, op: Op<T>)
    ensures AddedEntries(ops + [op]) == AddedEntries(ops) + EntryOf(op)
  {
    assert (ops + [op])[..|ops|] == ops;
  }

  lemma Regroup<T>(a: seq<T>, b: seq<T>, x: T)
    ensures (a + b) + [x] == a + (b + [x])
  {
  }

  lemma ExecuteNext<T>(ops: seq<Op<T>>, op: Op<T>)
    ensures Execute(ops + [op]) == After(Execute(ops), op)
  {
    assert (ops + [op])[..|ops|] == ops;
  }

  // A task added at the front is the next one taken, whatever is added at the back in between, and
  // nothing behind it changes its place.
  lemma FrontTaskIsNext<T>(ops: seq<Op<T>>, t: T, later: seq<Op<T>>)
    requires forall op :: op in later ==> op.Add? && !op.entry.front
    ensures Execute(ops + [Add(Entry(t, true))] + later + [Take]) ==
      Run(Execute(ops).queue + AddedEntries(later), Execute(ops).taken + [Entry(t, true)])
  {
    hide Execute, AddedEntries;
    var front := ops + [Add(Entry(t, true))];
    ExecuteNext(ops, Add(Entry(t, true)));
    BackAdds(front, later);
    ExecuteNext(front + later, Take);
    HeadFirst(Entry(t, true), Execute(ops).queue, AddedEntries(later));
  }

  lemma HeadFirst<T>(e: T, a: seq<T>, b: seq<T>)
    ensures (([e] + a) + b)[0] == e && (([e] + a) + b)[1..] == a + b
  {
  }

  lemma TakeKeepsTasks<T>(taken: seq<T>, queue: seq<T>)
    requires queue != []
    ensures multiset(taken + [queue[0]]) + multiset(queue[1..]) == multiset(taken) + multiset(queue)
  {
    TakeMoves(taken, queue);
    assert multiset((taken + [queue[0]]) + queue[1..]) == multiset(taken + queue);
  }

  lemma OpKeepsTasks<T>(r: Run<T>, op: Op<T>)
    ensures multiset(After(r, op).taken) + multiset(After(r, op).queue) ==
      multiset(r.taken) + multiset(r.queue) + multiset(EntryOf(op))
  {
    if op.Take? && r.queue != [] {
      TakeKeepsTasks(r.taken, r.queue);
    }
  }

  // No task is lost or run twice.
  lemma {:induction false} EveryTaskOnce<T>(ops: seq<Op<T>>)
    ensures multiset(Execute(ops).taken) + multiset(Execute(ops).queue) == multiset(AddedEntries(ops))
  {
    hide After, EntryOf;
    if ops != [] {
      EveryTaskOnce(ops[..|ops| - 1]);
      OpKeepsTasks(Execute(ops[..|ops| - 1]), ops[|ops| - 1]);
    }
  }
}
