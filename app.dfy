/**
  The `App` component's state and handlers: the per-user task store it writes to, the local
  `tasks` list the snapshot listener fills, and the three view flags.

  The store handlers never touch `tasks`: the listener (`Sync`) later replaces the list
  wholesale with the store's contents. The window width, the user's answer to the delete
  confirmation and the id the store assigns to a new document are parameters.
 */
module AppComponent {
  import opened Options
  import opened Records
  import opened Projections
  import opened ViewFlags

  class App {
    var store: Store
    var tasks: seq<Task>
    var isMobile: bool
    var taskViewActive: bool
    var scheduleViewActive: bool

    function Flags(): Views
      reads this
    {
      Views(isMobile, taskViewActive, scheduleViewActive)
    }

    ghost predicate Valid()
      reads this
    {
      Coherent(Flags())
    }

    constructor (width: int, docs: Store)
      ensures Valid()
      ensures Flags() == Initial(width)
      ensures store == docs && tasks == []
    {
      store := docs;
      tasks := [];
      isMobile := width < Breakpoint;
      taskViewActive := true;
      scheduleViewActive := if width < Breakpoint then false else true;
    }

    // ----- view flags -----

    method HandleResize(width: int)
      requires Valid()
      modifies this`isMobile, this`taskViewActive, this`scheduleViewActive
      ensures Valid()
      ensures Flags() == Resized(old(Flags()), width)
    {
      if width < Breakpoint {
        if !isMobile {
          isMobile := true;
          scheduleViewActive := false;
          taskViewActive := true;
        }
      } else if width > Breakpoint {
        isMobile := false;
        taskViewActive := true;
        scheduleViewActive := true;
      }
    }

    method HandleTaskButton()
      requires Valid()
      modifies this`taskViewActive, this`scheduleViewActive
      ensures Valid()
      ensures Flags() == TaskButton(old(Flags()))
    {
      taskViewActive := true;
      scheduleViewActive := false;
    }

    method HandleScheduleButton()
      requires Valid()
      modifies this`taskViewActive, this`scheduleViewActive
      ensures Valid()
      ensures Flags() == ScheduleButton(old(Flags()))
    {
      taskViewActive := false;
      scheduleViewActive := true;
    }

    // ----- store handlers -----

    /** `addTask(desc)`; `id` is the fresh id the store assigns. */
    method AddTask(desc: string, id: Id)
      requires id !in store
      modifies this`store
      ensures store == old(store)[id := NewTaskDoc(desc)]
      ensures store[id] == Doc(Some(desc), Some(false), Some(Unscheduled), Some(NoDate), Some(NoDate))
    {
      store := store[id := NewTaskDoc(desc)];
    }

    /** `addAppointment(a)`; `id` is the fresh id the store assigns. */
    method AddAppointment(a: NewAppointment, id: Id)
      requires id !in store
      modifies this`store
      ensures store == old(store)[id := NewAppointmentDoc(a)]
      ensures store[id] == Doc(Some(a.title), Some(false), Some(Scheduled), Some(a.startDate), Some(a.endDate))
    {
      store := store[id := NewAppointmentDoc(a)];
    }

    /** `changeAppointment({[id]: changes})`: writes exactly the fields `changes` supplies. */
    method ChangeAppointment(id: Id, changes: Doc)
      modifies this`store
      ensures store == MergeSet(old(store), id, changes)
    {
      store := MergeSet(store, id, changes);
    }

    /** `deleteAppointment(id)`: no confirmation. */
    method DeleteAppointment(id: Id)
      modifies this`store
      ensures store == old(store) - {id}
    {
      store := store - {id};
    }

    /** `saveTask(id, desc)`. */
    method SaveTask(id: Id, desc: string)
      modifies this`store
      ensures store == MergeSet(old(store), id, DescPatch(desc))
      ensures store[id] == Current(old(store), id).(desc := Some(desc))
    {
      store := MergeSet(store, id, DescPatch(desc));
    }

    /** `scheduleTask(id, start, end)`: no check that `start` comes before `end`. */
    method ScheduleTask(id: Id, start: Date, end: Date)
      modifies this`store
      ensures store == MergeSet(old(store), id, SchedulePatch(start, end))
      ensures store[id] == Current(old(store), id).(category := Some(Scheduled),
                                                    startDate := Some(start), endDate := Some(end))
    {
      store := MergeSet(store, id, SchedulePatch(start, end));
    }

    /** `completeTask(id)`. */
    method CompleteTask(id: Id)
      modifies this`store
      ensures store == MergeSet(old(store), id, CompletePatch())
      ensures store[id] == Current(old(store), id).(completed := Some(true), category := Some(Completed))
    {
      store := MergeSet(store, id, CompletePatch());
    }

    /** `uncompleteTask(id)`: the category is read off the local copy of the task. */
    method UncompleteTask(id: Id)
      requires Find(tasks, id).Some?
      modifies this`store
      ensures store == MergeSet(old(store), id, UncompletePatch(Find(tasks, id).value))
      ensures store[id] == Current(old(store), id).(completed := Some(false),
                             category := Some(if Find(tasks, id).value.startDate == NoDate
                                              then Unscheduled else Scheduled))
    {
      var current := Find(tasks, id).value;
      store := MergeSet(store, id, UncompletePatch(current));
    }

    /**
      `deleteTask(id)`: a task with a description is removed only if the user confirms;
      one with an empty or missing description is removed outright.
     */
    method DeleteTask(id: Id, confirmed: bool)
      requires Find(tasks, id).Some?
      modifies this`store
      ensures var desc := Find(tasks, id).value.desc;
              store == if desc.Some? && desc.value != "" && !confirmed then old(store)
                       else old(store) - {id}
    {
      var toDelete := Find(tasks, id).value;
      if toDelete.desc.Some? && toDelete.desc.value != "" {
        if confirmed {
          store := store - {id};
        }
      } else {
        store := store - {id};
      }
    }

    // ----- the local list -----

    /** `handleDnd(arr)`: replaces the local list; the store is not touched. */
    method HandleDnd(arr: seq<Task>)
      modifies this`tasks
      ensures tasks == Spliced(old(tasks), arr)
    {
      tasks := Filter(tasks, NotUnscheduled) + arr;
    }

    /**
      The snapshot listener: replaces the local list with every stored document, in the order
      the snapshot lists them. `order` names each document, and every document has both dates.
     */
    method Sync(order: seq<Id>)
      requires forall k :: k in store <==> k in order
      requires forall k :: k in store ==> HasDates(store[k])
      modifies this`tasks
      ensures tasks == Snapshot(store, order)
      ensures forall k :: k in store ==> Find(tasks, k) == Some(TaskOf(k, store[k]))
    {
      tasks := Snapshot(store, order);
      forall k | k in store
        ensures Find(tasks, k) == Some(TaskOf(k, store[k]))
      {
        FindInSnapshot(store, order, k);
      }
    }
  }

  /**
    Completing a synced task and then uncompleting it gives back a dated task as "scheduled"
    and an undated one as "unscheduled", with every other field and document as before.
   */
  lemma CompleteThenUncomplete(store: Store, id: Id, order: seq<Id>)
    requires id in order
    requires forall k :: k in order ==> k in store && HasDates(store[k])
    ensures var done := MergeSet(store, id, CompletePatch());
            && (forall k :: k in order ==> k in done && HasDates(done[k]))
            && var found := Find(Snapshot(done, order), id);
            && found.Some?
            && MergeSet(done, id, UncompletePatch(found.value))
               == store[id := store[id].(completed := Some(false),
                                         category := Some(if store[id].startDate == Some(NoDate)
                                                          then Unscheduled else Scheduled))]
  {
    var done := MergeSet(store, id, CompletePatch());
    assert forall k :: k in order ==> k in done && HasDates(done[k]);
    FindInSnapshot(done, order, id);
    MergeSetCompose(store, id, CompletePatch(), UncompletePatch(TaskOf(id, done[id])));
  }

  /**
    `addTask` followed by a snapshot that lists the new document anywhere among the others:
    one more "unscheduled" task, and every other counter as before.
   */
  lemma AddTaskCount(store: Store, a: seq<Id>, b: seq<Id>, id: Id, desc: string)
    requires forall k :: k in a + b ==> k in store && HasDates(store[k])
    requires id !in store
    ensures var after := store[id := NewTaskDoc(desc)];
            && (forall k :: k in a + [id] + b ==> k in after && HasDates(after[k]))
            && CountTasks(Snapshot(after, a + [id] + b), Unscheduled)
               == CountTasks(Snapshot(store, a + b), Unscheduled) + 1
            && forall c :: c != Unscheduled ==>
                 CountTasks(Snapshot(after, a + [id] + b), c) == CountTasks(Snapshot(store, a + b), c)
  {
    assert id !in a && id !in b by {
      assert forall k :: k in a ==> k in a + b;
      assert forall k :: k in b ==> k in a + b;
    }
    forall c: Category
      ensures CountTasks(Snapshot(store[id := NewTaskDoc(desc)], a + [id] + b), c)
              == CountTasks(Snapshot(store, a + b), c) + Ind(c == Unscheduled)
    {
      SnapshotAddCount(store, a, b, id, NewTaskDoc(desc), c);
    }
  }

  /**
    `scheduleTask` on an "unscheduled" task the snapshot lists once, seen through the next
    snapshot: one task fewer "unscheduled", one more "scheduled", and "completed" as before.
   */
  lemma ScheduleTaskCount(store: Store, order: seq<Id>, id: Id, start: Date, end: Date)
    requires forall k :: k in order ==> k in store && HasDates(store[k])
    requires Distinct(order) && id in order && store[id].category == Some(Unscheduled)
    ensures var after := MergeSet(store, id, SchedulePatch(start, end));
            && (forall k :: k in order ==> k in after && HasDates(after[k]))
            && CountTasks(Snapshot(after, order), Unscheduled) + 1
               == CountTasks(Snapshot(store, order), Unscheduled)
            && CountTasks(Snapshot(after, order), Scheduled)
               == CountTasks(Snapshot(store, order), Scheduled) + 1
            && CountTasks(Snapshot(after, order), Completed)
               == CountTasks(Snapshot(store, order), Completed)
  {
    var d := Merge(store[id], SchedulePatch(start, end));
    assert MergeSet(store, id, SchedulePatch(start, end)) == store[id := d];
    SnapshotReplaceCount(store, order, id, d, Unscheduled);
    SnapshotReplaceCount(store, order, id, d, Scheduled);
    SnapshotReplaceCount(store, order, id, d, Completed);
  }

  /** Counting the unscheduled tasks of a three-task list: unscheduled, scheduled, unscheduled. */
  lemma UnscheduledCountOfThree(ts: seq<Task>)
    requires |ts| == 3
    requires ts[0].category == Some(Unscheduled) && ts[1].category == Some(Scheduled)
    requires ts[2].category == Some(Unscheduled)
    ensures CountTasks(ts, Unscheduled) == 2
  {
    FilterLength(ts, InCategory(Unscheduled));
    FilterLength(ts[1..], InCategory(Unscheduled));
    FilterLength(ts[2..], InCategory(Unscheduled));
    assert ts[1..][1..] == ts[2..] && ts[2..][1..] == [];
  }

  /** The end-to-end scenario: three plain tasks, one of them scheduled, leave two unscheduled. */
  method CountScenario()
  {
    var app := new App(1024, map[]);
    app.AddTask("a", "1");
    app.AddTask("b", "2");
    app.AddTask("c", "3");
    app.ScheduleTask("2", At(10), At(20));
    assert app.store.Keys == {"1", "2", "3"};
    assert app.store["1"] == NewTaskDoc("a") && app.store["3"] == NewTaskDoc("c");
    assert app.store["2"].category == Some(Scheduled);
    app.Sync(["1", "2", "3"]);
    var ts := app.tasks;
    assert ts[0] in ts && ts[1] in ts && ts[2] in ts;
    assert ts[0].category == Some(Unscheduled) && ts[1].category == Some(Scheduled)
        && ts[2].category == Some(Unscheduled);
    UnscheduledCountOfThree(ts);
    assert CountTasks(ts, Unscheduled) == 2;
  }
}
