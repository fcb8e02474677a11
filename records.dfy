/**
  Task documents as the app keeps them in its per-user document collection, and the
  merge-set patches its handlers write into that collection.

  A document is a partial record: each of its five fields may be absent. A merge patch has
  the same shape, and merging overwrites exactly the fields the patch supplies. Writing a
  patch under an id that holds no document creates one that has only the patch's fields.
 */
module Records {
  import opened Options

  type Id = string

  /** A stored date: the empty string "" or a point in time (milliseconds). */
  datatype Date = NoDate | At(time: int)

  datatype Category = Unscheduled | Scheduled | Completed

  /** A stored task document; also the shape of a merge patch. */
  datatype Doc = Doc(
    desc: Option<string>,
    completed: Option<bool>,
    category: Option<Category>,
    startDate: Option<Date>,
    endDate: Option<Date>)

  /** A task of the local `tasks` list, as the snapshot listener builds it from a document. */
  datatype Task = Task(
    id: Id,
    desc: Option<string>,
    completed: Option<bool>,
    category: Option<Category>,
    startDate: Date,
    endDate: Date)

  /** What the calendar hands to the add-appointment handler. */
  datatype NewAppointment = NewAppointment(title: string, startDate: Date, endDate: Date)

  /** The per-user task collection, keyed by document id. */
  type Store = map<Id, Doc>

  /** A document none of whose fields are set. */
  const Blank := Doc(None, None, None, None, None)

  /** One field of a merge: the patch's value when it supplies one, else the document's. */
  function Pick<T>(base: Option<T>, patch: Option<T>): (r: Option<T>)
    ensures patch.Some? ==> r == patch
    ensures patch.None? ==> r == base
  {
    if patch.Some? then patch else base
  }

  /** Merge-set of one patch into one document. */
  function Merge(d: Doc, p: Doc): (r: Doc)
    ensures p.desc.Some? ==> r.desc == p.desc
    ensures p.completed.Some? ==> r.completed == p.completed
    ensures p.category.Some? ==> r.category == p.category
    ensures p.startDate.Some? ==> r.startDate == p.startDate
    ensures p.endDate.Some? ==> r.endDate == p.endDate
    ensures p.desc.None? ==> r.desc == d.desc
    ensures p.completed.None? ==> r.completed == d.completed
    ensures p.category.None? ==> r.category == d.category
    ensures p.startDate.None? ==> r.startDate == d.startDate
    ensures p.endDate.None? ==> r.endDate == d.endDate
    ensures p == Blank ==> r == d
    ensures d == Blank ==> r == p
  {
    Doc(Pick(d.desc, p.desc),
        Pick(d.completed, p.completed),
        Pick(d.category, p.category),
        Pick(d.startDate, p.startDate),
        Pick(d.endDate, p.endDate))
  }

  /** The document under `id`, or the blank one when there is none. */
  function Current(store: Store, id: Id): Doc {
    if id in store then store[id] else Blank
  }

  /** `set(patch, { merge: true })` on the document `id`: only that document changes. */
  function MergeSet(store: Store, id: Id, p: Doc): (r: Store)
    ensures r.Keys == store.Keys + {id}
    ensures r[id] == Merge(Current(store, id), p)
    ensures forall k :: k in store && k != id ==> r[k] == store[k]
  {
    store[id := Merge(Current(store, id), p)]
  }

  // ----- the records and patches the handlers build -----

  /** The document `addTask` inserts. */
  function NewTaskDoc(desc: string): Doc {
    Doc(Some(desc), Some(false), Some(Unscheduled), Some(NoDate), Some(NoDate))
  }

  /** The document `addAppointment` inserts. */
  function NewAppointmentDoc(a: NewAppointment): Doc {
    Doc(Some(a.title), Some(false), Some(Scheduled), Some(a.startDate), Some(a.endDate))
  }

  /** The patch of `saveTask`. */
  function DescPatch(desc: string): Doc {
    Doc(Some(desc), None, None, None, None)
  }

  /** The patch of `scheduleTask`. */
  function SchedulePatch(start: Date, end: Date): Doc {
    Doc(None, None, Some(Scheduled), Some(start), Some(end))
  }

  /** The patch of `completeTask`. */
  function CompletePatch(): Doc {
    Doc(None, Some(true), Some(Completed), None, None)
  }

  /** The category `uncompleteTask` gives back, read off the task's own start date. */
  function CategoryAfterUncomplete(startDate: Date): (c: Category)
    ensures c == Unscheduled <==> startDate == NoDate
    ensures c != Completed
  {
    if startDate == NoDate then Unscheduled else Scheduled
  }

  /** The patch of `uncompleteTask` for the local task `t`. */
  function UncompletePatch(t: Task): Doc {
    Doc(None, Some(false), Some(CategoryAfterUncomplete(t.startDate)), None, None)
  }

  // ----- consistency conditions between the fields -----
  // `addTask` builds an undated "unscheduled" record, `addAppointment` a "scheduled" one, and
  // the complete and uncomplete patches set the flag and the category together. These two
  // conditions name that agreement. No handler checks them: `addAppointment` and
  // `scheduleTask` take the dates as given, `scheduleTask` leaves the flag alone,
  // `uncompleteTask` reads only the local start date, and `changeAppointment` merges any patch.

  /** The completion flag is set exactly when the category is "completed". */
  predicate CompletionConsistent(d: Doc) {
    d.completed == Some(true) <==> d.category == Some(Completed)
  }

  /** "scheduled" carries an ordered pair of dates, "unscheduled" carries none. */
  predicate ScheduleConsistent(d: Doc) {
    && (d.category == Some(Scheduled) ==>
          d.startDate.Some? && d.startDate.value.At? &&
          d.endDate.Some? && d.endDate.value.At? &&
          d.startDate.value.time <= d.endDate.value.time)
    && (d.category == Some(Unscheduled) ==> d.startDate == Some(NoDate) && d.endDate == Some(NoDate))
  }

  // ----- merge semantics -----

  /** Writing the same patch again changes nothing. */
  lemma MergeIdempotent(d: Doc, p: Doc)
    ensures Merge(Merge(d, p), p) == Merge(d, p)
  {
  }

  /** Two patches in a row act as one patch holding the later value of each field. */
  lemma MergeCompose(d: Doc, p: Doc, q: Doc)
    ensures Merge(Merge(d, p), q) == Merge(d, Merge(p, q))
  {
  }

  /** Every merge-set handler is idempotent on the store. */
  lemma MergeSetIdempotent(store: Store, id: Id, p: Doc)
    ensures MergeSet(MergeSet(store, id, p), id, p) == MergeSet(store, id, p)
  {
    MergeIdempotent(Current(store, id), p);
  }

  /** Two merge-sets on one document equal one merge-set of the combined patch. */
  lemma MergeSetCompose(store: Store, id: Id, p: Doc, q: Doc)
    ensures MergeSet(MergeSet(store, id, p), id, q) == MergeSet(store, id, Merge(p, q))
  {
    MergeCompose(Current(store, id), p, q);
  }

  // ----- what each patch does to a document -----

  /** `addTask` builds an undated, unscheduled, uncompleted record. */
  lemma NewTaskShape(desc: string)
    ensures CompletionConsistent(NewTaskDoc(desc)) && ScheduleConsistent(NewTaskDoc(desc))
    ensures NewTaskDoc(desc).desc == Some(desc)
    ensures NewTaskDoc(desc).completed == Some(false)
    ensures NewTaskDoc(desc).category == Some(Unscheduled)
    ensures NewTaskDoc(desc).startDate == Some(NoDate) && NewTaskDoc(desc).endDate == Some(NoDate)
  {
  }

  /** `addAppointment` builds a scheduled record; it is schedule-consistent only for ordered dates. */
  lemma NewAppointmentShape(a: NewAppointment)
    ensures CompletionConsistent(NewAppointmentDoc(a))
    ensures ScheduleConsistent(NewAppointmentDoc(a)) <==>
              a.startDate.At? && a.endDate.At? && a.startDate.time <= a.endDate.time
  {
  }

  /** `saveTask` touches the description only. */
  lemma SaveChangesOnlyDesc(d: Doc, desc: string)
    ensures Merge(d, DescPatch(desc)) == d.(desc := Some(desc))
  {
  }

  /** `scheduleTask` touches the dates and the category only, and checks no ordering. */
  lemma ScheduleChangesOnlyDates(d: Doc, start: Date, end: Date)
    ensures Merge(d, SchedulePatch(start, end))
         == d.(category := Some(Scheduled), startDate := Some(start), endDate := Some(end))
  {
  }

  /** `completeTask` touches the flag and the category only, and makes them agree. */
  lemma CompleteChangesOnlyFlag(d: Doc)
    ensures Merge(d, CompletePatch()) == d.(completed := Some(true), category := Some(Completed))
    ensures CompletionConsistent(Merge(d, CompletePatch()))
  {
  }

  /** `uncompleteTask` touches the flag and the category only, and makes them agree. */
  lemma UncompleteChangesOnlyFlag(d: Doc, t: Task)
    ensures Merge(d, UncompletePatch(t))
         == d.(completed := Some(false), category := Some(CategoryAfterUncomplete(t.startDate)))
    ensures CompletionConsistent(Merge(d, UncompletePatch(t)))
  {
  }

  /**
    `scheduleTask` does not keep the completion flag and the category in agreement: scheduling
    a completed task leaves it flagged completed with category "scheduled".
   */
  lemma ScheduleCanBreakCompletion()
    ensures exists d: Doc, start: Date, end: Date ::
              CompletionConsistent(d) && !CompletionConsistent(Merge(d, SchedulePatch(start, end)))
  {
    var d := Doc(Some("done"), Some(true), Some(Completed), Some(At(0)), Some(At(1)));
    assert CompletionConsistent(d);
    assert !CompletionConsistent(Merge(d, SchedulePatch(At(0), At(1))));
  }

  /** `scheduleTask` accepts an end before the start. */
  lemma ScheduleCanBreakOrder()
    ensures exists d: Doc, start: Date, end: Date ::
              && start.At? && end.At? && end.time < start.time
              && ScheduleConsistent(d) && !ScheduleConsistent(Merge(d, SchedulePatch(start, end)))
  {
    var d := NewTaskDoc("");
    assert ScheduleConsistent(d);
    assert !ScheduleConsistent(Merge(d, SchedulePatch(At(5), At(1))));
  }

  /**
    With a local copy whose start date is still empty, `uncompleteTask` labels a dated
    document "unscheduled".
   */
  lemma StaleUncompleteCanBreakSchedule()
    ensures exists d: Doc, t: Task ::
              CompletionConsistent(d) && ScheduleConsistent(d)
              && !ScheduleConsistent(Merge(d, UncompletePatch(t)))
              && t.startDate == NoDate && d.startDate.Some? && d.startDate.value.At?
  {
    var d := Doc(Some("t"), Some(true), Some(Completed), Some(At(1)), Some(At(5)));
    var t := Task("x", Some("t"), Some(true), Some(Completed), NoDate, NoDate);
    assert CompletionConsistent(d) && ScheduleConsistent(d);
    assert !ScheduleConsistent(Merge(d, UncompletePatch(t)));
  }

  /** `changeAppointment` merges whatever the calendar sends, so it can set a lone category. */
  lemma ChangeCanBreakCompletion()
    ensures exists d: Doc, p: Doc ::
              && p == Doc(None, None, Some(Completed), None, None)
              && CompletionConsistent(d) && ScheduleConsistent(d)
              && !CompletionConsistent(Merge(d, p))
  {
    var d := NewTaskDoc("a");
    var p := Doc(None, None, Some(Completed), None, None);
    assert CompletionConsistent(d) && ScheduleConsistent(d);
    assert !CompletionConsistent(Merge(d, p));
  }
}
