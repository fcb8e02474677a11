/**
  The pure computations over the local `tasks` list: the lookup by id, the snapshot
  conversion that builds the list from the store, the category filter behind the badge
  counters, the drag-and-drop splice, the calendar's appointment list and the past-due test.
 */
module Projections {
  import opened Options
  import opened Records

  // ----- lookup by id -----

  /** `tasks.find(task => task.id === id)`: the first task with that id. */
  function Find(ts: seq<Task>, id: Id): (r: Option<Task>)
    ensures r.Some? <==> exists t :: t in ts && t.id == id
    ensures r.Some? ==> r.value in ts && r.value.id == id
    ensures r.Some? ==>
              exists i :: 0 <= i < |ts| && ts[i] == r.value && forall j :: 0 <= j < i ==> ts[j].id != id
  {
    if ts == [] then None
    else if ts[0].id == id then Some(ts[0])
    else
      var r := Find(ts[1..], id);
      assert forall t :: t in ts[1..] ==> t in ts;
      assert forall t :: t in ts && t !in ts[1..] ==> t == ts[0];
      if r.Some? then
        ghost var i :| 0 <= i < |ts[1..]| && ts[1..][i] == r.value && forall j :: 0 <= j < i ==> ts[1..][j].id != id;
        assert ts[i + 1] == r.value && forall j :: 0 <= j < i + 1 ==> ts[j].id != id;
        r
      else r
  }

  // ----- the snapshot listener -----

  /** A document the listener can convert: both date fields are present. */
  predicate HasDates(d: Doc) {
    d.startDate.Some? && d.endDate.Some?
  }

  /** The local task the listener builds from the document `id`. */
  function TaskOf(id: Id, d: Doc): Task
    requires HasDates(d)
  {
    Task(id, d.desc, d.completed, d.category, d.startDate.value, d.endDate.value)
  }

  /**
    `uncompleteTask` on an up-to-date local copy reads only the start date: a completed task
    whose end lies before its start (possible after `scheduleTask`) comes back "scheduled"
    with unordered dates.
   */
  lemma UncompleteCanBreakSchedule()
    ensures exists d: Doc, id: Id ::
              && HasDates(d) && CompletionConsistent(d) && ScheduleConsistent(d)
              && !ScheduleConsistent(Merge(d, UncompletePatch(TaskOf(id, d))))
  {
    var d := Doc(Some("t"), Some(true), Some(Completed), Some(At(5)), Some(At(1)));
    assert CompletionConsistent(d) && ScheduleConsistent(d);
    assert !ScheduleConsistent(Merge(d, UncompletePatch(TaskOf("x", d))));
  }

  /** The local list built from the documents in the order the snapshot lists them. */
  function Snapshot(store: Store, order: seq<Id>): (ts: seq<Task>)
    requires forall k :: k in order ==> k in store && HasDates(store[k])
    ensures |ts| == |order|
    ensures forall i :: 0 <= i < |order| ==> ts[i].id == order[i]
    ensures forall t :: t in ts ==> t.id in store && t == TaskOf(t.id, store[t.id])
  {
    if order == [] then []
    else [TaskOf(order[0], store[order[0]])] + Snapshot(store, order[1..])
  }

  /** After a snapshot, looking up a listed id finds exactly its stored document. */
  lemma FindInSnapshot(store: Store, order: seq<Id>, id: Id)
    requires forall k :: k in order ==> k in store && HasDates(store[k])
    requires id in order
    ensures Find(Snapshot(store, order), id) == Some(TaskOf(id, store[id]))
  {
    var ts := Snapshot(store, order);
    var i :| 0 <= i < |order| && order[i] == id;
    assert ts[i] in ts && ts[i].id == id;
  }

  /** No id is listed twice, as in a snapshot of distinct documents. */
  predicate Distinct(order: seq<Id>) {
    forall i, j :: 0 <= i < j < |order| ==> order[i] != order[j]
  }

  lemma {:induction false} SnapshotAppend(store: Store, a: seq<Id>, b: seq<Id>)
    requires forall k :: k in a + b ==> k in store && HasDates(store[k])
    ensures Snapshot(store, a + b) == Snapshot(store, a) + Snapshot(store, b)
  {
    if a == [] {
      assert a + b == b;
    } else {
      assert (a + b)[0] == a[0];
      assert (a + b)[1..] == a[1..] + b;
      SnapshotAppend(store, a[1..], b);
    }
  }

  /** Changing a document the snapshot does not list leaves the snapshot as it was. */
  lemma {:induction false} SnapshotFrame(store: Store, order: seq<Id>, id: Id, d: Doc)
    requires forall k :: k in order ==> k in store && HasDates(store[k])
    requires id !in order && HasDates(d)
    ensures Snapshot(store[id := d], order) == Snapshot(store, order)
  {
    if order != [] {
      assert order[0] in order;
      SnapshotFrame(store, order[1..], id, d);
    }
  }

  /** 1 for true, 0 for false. */
  function Ind(b: bool): (n: nat)
    ensures n <= 1 && (n == 1 <==> b)
  {
    if b then 1 else 0
  }

  lemma CountTasksAppend(a: seq<Task>, b: seq<Task>, c: Category)
    ensures CountTasks(a + b, c) == CountTasks(a, c) + CountTasks(b, c)
  {
    FilterAppend(a, b, InCategory(c));
  }

  lemma CountTasksOne(t: Task, c: Category)
    ensures CountTasks([t], c) == Ind(t.category == Some(c))
  {
    assert [t][1..] == [];
  }

  /**
    A document added under an id the snapshot did not list, wherever the new snapshot lists
    it, raises the counter of its own category by one and leaves the others as they were.
   */
  lemma SnapshotAddCount(store: Store, a: seq<Id>, b: seq<Id>, id: Id, d: Doc, c: Category)
    requires forall k :: k in a + b ==> k in store && HasDates(store[k])
    requires id !in a && id !in b && HasDates(d)
    ensures forall k :: k in a + [id] + b ==> k in store[id := d] && HasDates(store[id := d][k])
    ensures CountTasks(Snapshot(store[id := d], a + [id] + b), c)
         == CountTasks(Snapshot(store, a + b), c) + Ind(d.category == Some(c))
  {
    SnapshotSplitCount(store[id := d], a, id, b, c);
    SnapshotFrame(store, a, id, d);
    SnapshotFrame(store, b, id, d);
    SnapshotAppend(store, a, b);
    CountTasksAppend(Snapshot(store, a), Snapshot(store, b), c);
  }

  /** A list with no repeats that holds `id` is the ids before it, `id`, and the ids after it. */
  lemma SplitAt(order: seq<Id>, id: Id) returns (a: seq<Id>, b: seq<Id>)
    requires Distinct(order) && id in order
    ensures order == a + [id] + b && id !in a && id !in b
  {
    var i :| 0 <= i < |order| && order[i] == id;
    a, b := order[..i], order[i + 1..];
    assert order == a + [id] + b;
    forall j | 0 <= j < |a| ensures a[j] != id { assert a[j] == order[j]; }
    forall j | 0 <= j < |b| ensures b[j] != id { assert b[j] == order[i + 1 + j]; }
  }

  /** The counter over a snapshot listing `a`, then `id`, then `b`, taken part by part. */
  lemma SnapshotSplitCount(store: Store, a: seq<Id>, id: Id, b: seq<Id>, c: Category)
    requires forall k :: k in a + [id] + b ==> k in store && HasDates(store[k])
    ensures CountTasks(Snapshot(store, a + [id] + b), c)
         == CountTasks(Snapshot(store, a), c) + Ind(store[id].category == Some(c))
            + CountTasks(Snapshot(store, b), c)
  {
    SnapshotAppend(store, a + [id], b);
    SnapshotAppend(store, a, [id]);
    assert Snapshot(store, [id]) == [TaskOf(id, store[id])];
    CountTasksAppend(Snapshot(store, a) + [TaskOf(id, store[id])], Snapshot(store, b), c);
    CountTasksAppend(Snapshot(store, a), [TaskOf(id, store[id])], c);
    CountTasksOne(TaskOf(id, store[id]), c);
  }

  /**
    Replacing a document the snapshot lists once moves one unit from the counter of its old
    category to that of its new one; every other counter is unchanged.
   */
  lemma SnapshotReplaceCount(store: Store, order: seq<Id>, id: Id, d: Doc, c: Category)
    requires forall k :: k in order ==> k in store && HasDates(store[k])
    requires Distinct(order) && id in order && HasDates(d)
    ensures forall k :: k in order ==> k in store[id := d] && HasDates(store[id := d][k])
    ensures CountTasks(Snapshot(store[id := d], order), c) + Ind(store[id].category == Some(c))
         == CountTasks(Snapshot(store, order), c) + Ind(d.category == Some(c))
  {
    var a, b := SplitAt(order, id);
    assert forall k :: k in a + [id] + b ==> k in order;
    SnapshotSplitCount(store, a, id, b, c);
    SnapshotSplitCount(store[id := d], a, id, b, c);
    SnapshotFrame(store, a, id, d);
    SnapshotFrame(store, b, id, d);
  }

  // ----- filtering -----

  /** `Array.prototype.filter`: the tasks `keep` accepts, in their order. */
  function Filter(ts: seq<Task>, keep: Task -> bool): (r: seq<Task>)
    ensures |r| <= |ts|
    ensures forall t :: t in r <==> t in ts && keep(t)
  {
    if ts == [] then []
    else (if keep(ts[0]) then [ts[0]] else []) + Filter(ts[1..], keep)
  }

  lemma {:induction false} FilterAppend(a: seq<Task>, b: seq<Task>, keep: Task -> bool)
    ensures Filter(a + b, keep) == Filter(a, keep) + Filter(b, keep)
  {
    if a == [] {
      assert a + b == b;
    } else {
      assert (a + b)[0] == a[0];
      assert (a + b)[1..] == a[1..] + b;
      FilterAppend(a[1..], b, keep);
    }
  }

  lemma FilterLength(ts: seq<Task>, keep: Task -> bool)
    requires ts != []
    ensures |Filter(ts, keep)| == (if keep(ts[0]) then 1 else 0) + |Filter(ts[1..], keep)|
  {
  }

  lemma {:induction false} FilterAll(ts: seq<Task>, keep: Task -> bool)
    requires forall t :: t in ts ==> keep(t)
    ensures Filter(ts, keep) == ts
  {
    if ts != [] {
      assert ts[0] in ts;
      FilterAll(ts[1..], keep);
    }
  }

  lemma FilterNone(ts: seq<Task>, keep: Task -> bool)
    requires forall t :: t in ts ==> !keep(t)
    ensures Filter(ts, keep) == []
  {
  }

  /** Filtering by a stricter test after a looser one is filtering by the stricter one. */
  lemma {:induction false} FilterNarrow(ts: seq<Task>, loose: Task -> bool, strict: Task -> bool)
    requires forall t :: t in ts && strict(t) ==> loose(t)
    ensures Filter(Filter(ts, loose), strict) == Filter(ts, strict)
  {
    if ts != [] {
      assert ts[0] in ts;
      FilterNarrow(ts[1..], loose, strict);
      var head := if loose(ts[0]) then [ts[0]] else [];
      FilterAppend(head, Filter(ts[1..], loose), strict);
    }
  }

  /** The test `task.category === c`; a task without a category matches no `c`. */
  function InCategory(c: Category): Task -> bool {
    (t: Task) => t.category == Some(c)
  }

  /** The test `task.category !== "unscheduled"`. */
  function NotUnscheduled(t: Task): bool {
    t.category != Some(Unscheduled)
  }

  // ----- the badge counters -----

  /** `countTasks(c)`: the length of the list filtered by category. */
  function CountTasks(ts: seq<Task>, c: Category): (n: nat)
    ensures n <= |ts|
    ensures n == 0 <==> forall t :: t in ts ==> t.category != Some(c)
  {
    var kept := Filter(ts, InCategory(c));
    assert kept != [] ==> kept[0] in kept;
    |kept|
  }

  /** The categories of the list, position by position. */
  ghost function Categories(ts: seq<Task>): (cs: seq<Option<Category>>)
    ensures |cs| == |ts|
  {
    if ts == [] then [] else [ts[0].category] + Categories(ts[1..])
  }

  /** `countTasks(c)` is the number of positions of the list whose category is `c`. */
  lemma {:induction false} CountTasksIsOccurrences(ts: seq<Task>, c: Category)
    ensures CountTasks(ts, c) == multiset(Categories(ts))[Some(c)]
  {
    if ts != [] {
      CountTasksIsOccurrences(ts[1..], c);
      assert Categories(ts) == [ts[0].category] + Categories(ts[1..]);
      assert multiset(Categories(ts)) == multiset([ts[0].category]) + multiset(Categories(ts[1..]));
    }
  }

  /** The test for a task whose document has no category field. */
  function Uncategorised(t: Task): bool {
    t.category.None?
  }

  /** The three counters and the tasks without a category add up to the whole list. */
  lemma {:induction false} CountTasksPartition(ts: seq<Task>)
    ensures CountTasks(ts, Unscheduled) + CountTasks(ts, Scheduled) + CountTasks(ts, Completed)
            + |Filter(ts, Uncategorised)| == |ts|
  {
    if ts != [] {
      CountTasksPartition(ts[1..]);
      FilterLength(ts, InCategory(Unscheduled));
      FilterLength(ts, InCategory(Scheduled));
      FilterLength(ts, InCategory(Completed));
      FilterLength(ts, Uncategorised);
      var t := ts[0];
      assert t.category.None? || t.category.value.Unscheduled? || t.category.value.Scheduled?
             || t.category.value.Completed?;
    }
  }

  // ----- the drag-and-drop splice -----

  /** `handleDnd(arr)`: every task that is not unscheduled, in order, then `arr`. */
  function Spliced(ts: seq<Task>, arr: seq<Task>): (r: seq<Task>)
    ensures |r| <= |ts| + |arr|
    ensures forall t :: t in r <==> (t in ts && t.category != Some(Unscheduled)) || t in arr
  {
    Filter(ts, NotUnscheduled) + arr
  }

  /** Among the tasks that are not unscheduled, the old ones keep their order ahead of `arr`'s. */
  lemma SplicedKeepsOthersInOrder(ts: seq<Task>, arr: seq<Task>)
    ensures Filter(Spliced(ts, arr), NotUnscheduled) == Filter(ts, NotUnscheduled) + Filter(arr, NotUnscheduled)
  {
    FilterAppend(Filter(ts, NotUnscheduled), arr, NotUnscheduled);
    FilterAll(Filter(ts, NotUnscheduled), NotUnscheduled);
  }

  /**
    Reordering the unscheduled tasks: when `arr` holds only unscheduled tasks, the unscheduled
    part of the new list reads exactly `arr`, and every other task and counter is as before.
   */
  lemma SplicedReorder(ts: seq<Task>, arr: seq<Task>)
    requires forall t :: t in arr ==> t.category == Some(Unscheduled)
    ensures Filter(Spliced(ts, arr), InCategory(Unscheduled)) == arr
    ensures Filter(Spliced(ts, arr), NotUnscheduled) == Filter(ts, NotUnscheduled)
    ensures forall c :: c != Unscheduled ==> CountTasks(Spliced(ts, arr), c) == CountTasks(ts, c)
  {
    var kept := Filter(ts, NotUnscheduled);
    FilterAppend(kept, arr, InCategory(Unscheduled));
    FilterNone(kept, InCategory(Unscheduled));
    FilterAll(arr, InCategory(Unscheduled));
    SplicedKeepsOthersInOrder(ts, arr);
    FilterNone(arr, NotUnscheduled);
    forall c | c != Unscheduled
      ensures CountTasks(Spliced(ts, arr), c) == CountTasks(ts, c)
    {
      FilterAppend(kept, arr, InCategory(c));
      FilterNone(arr, InCategory(c));
      FilterNarrow(ts, NotUnscheduled, InCategory(c));
    }
  }

  // ----- the calendar's appointments -----

  datatype Appointment = Appointment(startDate: Date, endDate: Date, title: Option<string>, id: Id)

  function AppointmentOf(t: Task): Appointment {
    Appointment(t.startDate, t.endDate, t.desc, t.id)
  }

  /** `.map(task => ({ startDate, endDate, title: desc, id }))`. */
  function Reshape(s: seq<Task>): (r: seq<Appointment>)
    ensures |r| == |s|
  {
    seq(|s|, i requires 0 <= i < |s| => AppointmentOf(s[i]))
  }

  lemma ReshapeAppend(x: seq<Task>, y: seq<Task>)
    ensures Reshape(x + y) == Reshape(x) + Reshape(y)
  {
    forall i | 0 <= i < |x| + |y| ensures Reshape(x + y)[i] == (Reshape(x) + Reshape(y))[i] {
      if i >= |x| {
        assert (x + y)[i] == y[i - |x|];
      }
    }
  }

  /** The `appointments` handed to the schedule view: the scheduled tasks, reshaped. */
  function Appointments(ts: seq<Task>): (r: seq<Appointment>)
    ensures |r| == CountTasks(ts, Scheduled)
    ensures forall t :: t in ts && t.category == Some(Scheduled) ==> AppointmentOf(t) in r
    ensures forall a :: a in r ==> exists t :: t in ts && t.category == Some(Scheduled) && AppointmentOf(t) == a
  {
    var s := Filter(ts, InCategory(Scheduled));
    var r := Reshape(s);
    assert forall t :: t in s ==> AppointmentOf(t) in r by {
      forall t | t in s ensures AppointmentOf(t) in r {
        var i :| 0 <= i < |s| && s[i] == t;
        assert r[i] == AppointmentOf(t);
      }
    }
    assert forall a :: a in r ==> exists t :: t in s && AppointmentOf(t) == a by {
      forall a | a in r ensures exists t :: t in s && AppointmentOf(t) == a {
        var i :| 0 <= i < |r| && r[i] == a;
        assert s[i] in s;
      }
    }
    r
  }

  /** One task yields its appointment exactly when it is scheduled. */
  lemma AppointmentsOfOne(t: Task)
    ensures Appointments([t]) == if t.category == Some(Scheduled) then [AppointmentOf(t)] else []
  {
    assert [t][1..] == [];
  }

  /** The projection keeps the list's order: it distributes over concatenation. */
  lemma AppointmentsAppend(a: seq<Task>, b: seq<Task>)
    ensures Appointments(a + b) == Appointments(a) + Appointments(b)
  {
    FilterAppend(a, b, InCategory(Scheduled));
    ReshapeAppend(Filter(a, InCategory(Scheduled)), Filter(b, InCategory(Scheduled)));
  }

  // ----- overdue test -----

  /**
    `pastDue(task)` at time `now`: a completed task is never past due; an empty end date makes
    an invalid Date, which compares false; otherwise the end date must lie before `now`.
   */
  function PastDue(t: Task, now: int): (r: bool)
    ensures t.completed == Some(true) ==> !r
    ensures t.endDate == NoDate ==> !r
    ensures t.completed != Some(true) && t.endDate.At? ==> (r <==> t.endDate.time < now)
  {
    if t.completed == Some(true) then false
    else match t.endDate
      case NoDate => false
      case At(end) => end < now
  }

  /** Once past due, a task stays past due as time goes on. */
  lemma PastDueMonotone(t: Task, now: int, later: int)
    requires now <= later
    ensures PastDue(t, now) ==> PastDue(t, later)
  {
  }
}
