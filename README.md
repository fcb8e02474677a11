# Ajenda task records — a Dafny model

Ajenda is a personal task and appointment manager. Its `App` component (`src/App.js`) keeps
each user's tasks as documents in a remote collection. The handlers write to that collection:
they add documents, merge-set partial patches by id, and delete documents. A snapshot listener
rebuilds the local `tasks` list from the collection. The list feeds the badge counters, the
drag-and-drop reordering and the calendar's appointment list. Three view flags (mobile or not,
task view shown, schedule view shown) follow the window width and the mobile footer's two
buttons.

This project models that logic:

- `options.dfy`: module `Options`, the `Option` type.
- `records.dfy`: module `Records`. It holds the task document and the local task. A stored
  document is a partial record: any of its five fields `desc`, `completed`, `category`,
  `startDate` and `endDate` may be absent. A merge patch has the same shape, and `Merge`
  overwrites exactly the fields the patch supplies. The module also holds `MergeSet`, the
  record and patch each handler builds, and two consistency conditions between completion,
  category and dates.
- `projections.dfy`: module `Projections`, the pure computations over the local list. These
  are `find` by id, the snapshot conversion, `filter`, `countTasks`, the drag-and-drop splice,
  the calendar's appointment list and `pastDue`.
- `viewflags.dfy`: module `ViewFlags`, the view-flag state machine as functions.
- `app.dfy`: module `AppComponent`. It holds class `App`, with fields `store`, `tasks`,
  `isMobile`, `taskViewActive` and `scheduleViewActive`, one method per handler, and the
  complete-then-uncomplete round trip. It also holds how `addTask` and `scheduleTask` move the
  badge counters, and a worked example (`CountScenario`, with its helper
  `UnscheduledCountOfThree`): three added tasks, one of them then scheduled, leave two
  "unscheduled".

Dates are `NoDate` (the stored empty string `""`) or `At(t)` with an integer timestamp. In a
stored document a date field may also be missing. The snapshot listener calls `.toDate()` on
every date that is not `""`, so it would fail on a missing one. The model therefore requires
both dates to be present before it converts a document (`Sync`). In the local list the dates
are plain `Date` values. `desc`, `completed` and `category` stay optional, because the listener
copies a missing field as `undefined`.

The model states two consistency conditions of its own. `CompletionConsistent` says the
completion flag is set exactly when the category is "completed". `ScheduleConsistent` says a
"scheduled" document has two ordered dates and an "unscheduled" one has none. They describe
what the handlers build: `addTask` makes an undated "unscheduled" record, `addAppointment` a
"scheduled" one, and the complete and uncomplete patches set the flag and the category
together. No handler checks them, and four handlers can break them:

- `scheduleTask` does not check that the start comes before the end; it accepts any pair
  (`ScheduleCanBreakOrder`).
- `scheduleTask` leaves `completed` alone. Scheduling a completed task leaves it flagged
  completed with category "scheduled", so "completed iff category is completed" is not kept
  (`ScheduleCanBreakCompletion`).
- `addAppointment` stores the calendar's dates as given, so it meets `ScheduleConsistent` only
  for ordered dates (`NewAppointmentShape`).
- `uncompleteTask` chooses the category from the local start date alone. It never looks at the
  end date or at the order of the dates. A completed task whose end lies before its start (one
  that `scheduleTask` let through) comes back "scheduled" with unordered dates
  (`UncompleteCanBreakSchedule`). A stale local copy whose start date is still empty relabels a
  dated document "unscheduled" (`StaleUncompleteCanBreakSchedule`).
- `changeAppointment` merges whatever changes the calendar sends. A patch that sets only the
  category to "completed" leaves `completed` false (`ChangeCanBreakCompletion`).

Other behaviours of the code that the model keeps:

- A merge-set on an id with no document does not fail and is not a no-op: it creates a
  document holding only the patch's fields (`MergeSet`, through `Current`).
- `uncompleteTask` and `deleteTask` look the id up in the local list, which can lag behind the
  store. They fail when the id is not in that list. The model states this as the precondition
  `Find(tasks, id).Some?`.

## Model

| member | source | states |
|---|---|---|
| `Records.Merge` | src/App.js:77-82 | each field the patch supplies takes the patch's value, each field it omits keeps the document's; an empty patch changes nothing, and a patch onto a blank document is the patch itself |
| `Records.MergeSet` | src/App.js:77-82 | a merge-set adds at most the one key `id`, leaves every other document as it was, and merges the patch into the current document (or into a blank one when there is none) |
| `Records.CategoryAfterUncomplete` | src/App.js:133 | the category after uncompleting is "unscheduled" exactly when the start date is empty, and never "completed" |
| `Records.MergeIdempotent` | src/App.js:77-82 | merging the same patch twice equals merging it once |
| `Records.MergeCompose` | src/App.js:77-82 | two merges in a row equal one merge of the combined patch, in which the later patch wins field by field |
| `Records.MergeSetIdempotent` | src/App.js:113-121 | every merge-set handler, `completeTask` included, applied twice to the store equals applying it once |
| `Records.MergeSetCompose` | src/App.js:93-136 | two merge-set handlers on one id equal one merge-set of their combined patch |
| `Records.NewTaskShape` | src/App.js:38-45 | the record `addTask` builds keeps the description, is not completed, is "unscheduled" with both dates empty, and meets both consistency conditions |
| `Records.NewAppointmentShape` | src/App.js:53-60 | the record `addAppointment` builds keeps completion and category in agreement; it meets the schedule invariant exactly when both dates are set and ordered |
| `Records.SaveChangesOnlyDesc` | src/App.js:93-100 | `saveTask` changes the description and no other field |
| `Records.ScheduleChangesOnlyDates` | src/App.js:102-111 | `scheduleTask` sets both dates and category "scheduled", changes no other field, and puts no ordering condition on the dates |
| `Records.CompleteChangesOnlyFlag` | src/App.js:113-121 | `completeTask` sets `completed` and category "completed", changes nothing else, and leaves the two in agreement |
| `Records.UncompleteChangesOnlyFlag` | src/App.js:123-137 | `uncompleteTask` clears `completed`, sets the category derived from the local task's start date, changes nothing else, and leaves flag and category in agreement |
| `Records.ScheduleCanBreakCompletion` | src/App.js:102-111 | some document with flag and category in agreement loses that agreement when it is scheduled |
| `Records.ScheduleCanBreakOrder` | src/App.js:102-111 | some schedule-consistent document becomes inconsistent when it is scheduled with two set dates, the end before the start |
| `Records.StaleUncompleteCanBreakSchedule` | src/App.js:124-133 | with a local copy whose start date is empty, uncompleting a document that has a set start date and meets both conditions makes it "unscheduled" and breaks the schedule condition |
| `Records.ChangeCanBreakCompletion` | src/App.js:68-83 | some document that meets both conditions loses flag–category agreement under the merge-set patch that sets only the category, to "completed" |
| `Projections.UncompleteCanBreakSchedule` | src/App.js:123-137 | some document that meets both conditions stops meeting the schedule condition when it is uncompleted through an up-to-date local copy of itself, because only the start date is read |
| `Projections.Find` | src/App.js:124 | `find` yields a task exactly when some task has the id; that task is in the list, has the id, and no earlier task has it |
| `Projections.Snapshot` | src/App.js:206-221 | the listener's list has one task per listed id, in the listed order, and each is the stored document under its id |
| `Projections.FindInSnapshot` | src/App.js:206-221 | after a snapshot, looking up a listed id yields exactly the task converted from that id's document |
| `Projections.SnapshotAppend` | src/App.js:206-221 | the snapshot of two lists of ids, one after the other, is the two snapshots one after the other |
| `Projections.SnapshotFrame` | src/App.js:206-221 | changing a document the snapshot does not list leaves the snapshot unchanged |
| `Projections.SnapshotAddCount` | src/App.js:163-166 | a new document, listed at any position among the others, raises the counter of its own category by one and leaves every other counter unchanged |
| `Projections.SnapshotReplaceCount` | src/App.js:163-166 | replacing a document the snapshot lists once moves one unit from the counter of its old category to the counter of its new one, and leaves every other counter unchanged |
| `Projections.Filter` | src/App.js:164 | `filter` keeps exactly the tasks that pass the test and never lengthens the list |
| `Projections.FilterAppend` | src/App.js:164 | filtering a concatenation is concatenating the filtered parts, so order is kept |
| `Projections.CountTasks` | src/App.js:163-166 | `countTasks(c)` is at most the length of the list, and is zero exactly when no task has category `c` |
| `Projections.CountTasksIsOccurrences` | src/App.js:163-166 | `countTasks(c)` equals the number of positions of the list whose category is `c` |
| `Projections.CountTasksPartition` | src/App.js:163-166 | the counts for the three categories plus the tasks without a category add up to the length of the list |
| `Projections.Spliced` | src/App.js:168-173 | the spliced list holds exactly the old tasks that are not "unscheduled" and the tasks of `arr` |
| `Projections.SplicedKeepsOthersInOrder` | src/App.js:169-172 | among the tasks that are not "unscheduled", the old ones keep their relative order and come before those of `arr` |
| `Projections.SplicedReorder` | src/App.js:168-173 | when `arr` holds only unscheduled tasks, the unscheduled part of the new list is exactly `arr`, the other tasks are as before and in order, and every other category's count is unchanged |
| `Projections.Appointments` | src/App.js:274-283 | the calendar gets one appointment per scheduled task, each scheduled task yields its appointment (title from the description, same id and dates), and nothing else appears |
| `Projections.AppointmentsOfOne` | src/App.js:275-282 | a single task yields its appointment exactly when its category is "scheduled" |
| `Projections.AppointmentsAppend` | src/App.js:274-283 | the projection distributes over concatenation, so appointments appear in list order |
| `Projections.PastDue` | src/App.js:186-198 | a completed task is not past due; a task with an empty end date is not past due; otherwise it is past due exactly when its end date lies before `now` |
| `Projections.PastDueMonotone` | src/App.js:192-194 | a task past due at one time is past due at every later time |
| `ViewFlags.Initial` | src/App.js:17-21 | the initial flags are coherent; the app is mobile exactly below width 768, shows the task view, and shows the schedule view exactly when not mobile |
| `ViewFlags.Resized` | src/App.js:24-36 | a resize keeps the flags coherent; mobile follows the width, and width 768 exactly changes nothing; above 768 both views show; below 768 while already mobile nothing changes |
| `ViewFlags.TaskButton` | src/App.js:175-178 | the task button shows the task view and hides the schedule view, leaves the flags coherent, and does not change the mobile flag |
| `ViewFlags.ScheduleButton` | src/App.js:180-183 | the schedule button shows the schedule view and hides the task view, leaves the flags coherent, and does not change the mobile flag |
| `ViewFlags.ResizeIdempotent` | src/App.js:24-36 | handling the same width twice equals handling it once |
| `ViewFlags.ResizeToMobileShowsTasks` | src/App.js:25-30 | going from desktop to below 768 gives mobile with the task view only |
| `AppComponent.App.constructor` | src/App.js:16-21 | the local list starts empty, the store holds the user's documents, and the flags are the initial ones for the width, which are coherent |
| `AppComponent.App.HandleResize` | src/App.js:24-36 | the flags become `Resized` of the old flags, stay coherent, and nothing else changes |
| `AppComponent.App.HandleTaskButton` | src/App.js:175-178 | the flags become `TaskButton` of the old flags and stay coherent |
| `AppComponent.App.HandleScheduleButton` | src/App.js:180-183 | the flags become `ScheduleButton` of the old flags and stay coherent |
| `AppComponent.App.AddTask` | src/App.js:38-51 | inserts one new document under a fresh id, with the description, not completed, category "unscheduled" and both dates empty; every other document is unchanged |
| `AppComponent.App.AddAppointment` | src/App.js:53-66 | inserts one new document under a fresh id, with the appointment's title as description, not completed, category "scheduled" and the appointment's dates; every other document is unchanged |
| `AppComponent.App.ChangeAppointment` | src/App.js:68-83 | merges the changes into the document `id`, overwriting exactly the fields the changes supply |
| `AppComponent.App.DeleteAppointment` | src/App.js:85-91 | removes the document `id`, and only it, without confirmation |
| `AppComponent.App.SaveTask` | src/App.js:93-100 | the document `id` gets the new description and keeps every other field; the rest of the store is unchanged |
| `AppComponent.App.ScheduleTask` | src/App.js:102-111 | the document `id` gets both dates and category "scheduled" and keeps its description and completion; no ordering check |
| `AppComponent.App.CompleteTask` | src/App.js:113-121 | the document `id` gets `completed` true and category "completed" and keeps its other fields |
| `AppComponent.App.UncompleteTask` | src/App.js:123-137 | the document `id` gets `completed` false and a category of "unscheduled" if the local task's start date is empty, else "scheduled"; its other fields are kept |
| `AppComponent.App.DeleteTask` | src/App.js:139-161 | a task with a non-empty description is removed exactly when the user confirms, and otherwise the store is unchanged; a task with an empty or missing description is removed outright |
| `AppComponent.App.HandleDnd` | src/App.js:168-173 | the local list becomes the old tasks that are not "unscheduled", in order, followed by `arr`; the store is not touched |
| `AppComponent.App.Sync` | src/App.js:201-223 | the local list becomes the snapshot of the store in the listed order, and looking up any stored id finds the task converted from its document |
| `AppComponent.AddTaskCount` | src/App.js:38-51 | after `addTask`, the next snapshot, wherever it lists the new document, counts one more "unscheduled" task, and every other counter is unchanged |
| `AppComponent.ScheduleTaskCount` | src/App.js:102-111 | after `scheduleTask` on an "unscheduled" task that the snapshot lists once, the next snapshot counts one fewer "unscheduled" task and one more "scheduled" task, and the same number of "completed" tasks |
| `AppComponent.CompleteThenUncomplete` | src/App.js:113-137 | completing a synced task and then uncompleting it returns a dated task to "scheduled" and an undated one to "unscheduled", with completion false and every other field and document as before |

## Left out

- The remote collection's transport (`db.collection(...)` paths, the network, failures) is not modelled. The store is an in-memory map with insert, merge-set and delete.
- Ids the store assigns to new documents are a parameter of `AddTask` and `AddAppointment`, required to be fresh.
- The listener's asynchrony is not modelled: `Sync` is an explicit step. The snapshot's document order is its `order` parameter.
- Timestamp-to-`Date` conversion (`toDate()`) is not modelled; dates are integer timestamps throughout.
- `window.innerWidth`, `window.confirm` and `Date.now()` become the parameters `width`, `confirmed` and `now`. The resize listener's registration (src/App.js:225-228) is not modelled.
- React state plumbing, the JSX, routing, authentication and the child components are not part of this model. The child components are `TaskView`, `ScheduleView`, `MobileFooter` and `Navbar`.
- The commented-out past-due sweep and its "past" category (src/App.js:230-247) are not modelled, because that code is disabled; `Category` has only the three live values.
- `AppComponent.App.ChangeAppointment`: the handler receives an object keyed by id, reads its first key as the id and that key's value as the changes (src/App.js:69-71). The model takes the id and the changes directly. It does not model how the first key is picked, that changes under any further ids in the same object are ignored, or an empty object, whose id is `undefined`.
- `AppComponent.App.ChangeAppointment`: a patch key other than the five task fields is not modelled (the calendar can send `title` or `allDay`, for example). The store keeps such keys, but the listener never reads them back, so they cannot affect anything the model observes. In particular, a `title` key does not change `desc`.
- Category and field values outside the types above are not modelled, such as a category string other than the three or a non-boolean `completed`; no handler writes them.
