/**
  The three view flags of the app shell and the transitions that drive them: a window
  resize across the mobile breakpoint, and the two buttons of the mobile footer.
 */
module ViewFlags {

  /** Window widths below this are mobile; this width itself is neither side for a resize. */
  const Breakpoint: int := 768

  datatype Views = Views(isMobile: bool, taskViewActive: bool, scheduleViewActive: bool)

  /** Some view is shown, and on mobile exactly one. */
  predicate Coherent(v: Views) {
    && (v.taskViewActive || v.scheduleViewActive)
    && (v.isMobile ==> v.taskViewActive != v.scheduleViewActive)
  }

  /** The flags at start-up for a window of width `width`. */
  function Initial(width: int): (v: Views)
    ensures Coherent(v)
    ensures v.isMobile <==> width < Breakpoint
    ensures v.taskViewActive
    ensures v.scheduleViewActive <==> !v.isMobile
  {
    var mobile := width < Breakpoint;
    Views(mobile, true, if mobile then false else true)
  }

  /** `handleResize` for a window now `width` wide. */
  function Resized(v: Views, width: int): (r: Views)
    ensures Coherent(v) ==> Coherent(r)
    ensures r.isMobile == if width == Breakpoint then v.isMobile else width < Breakpoint
    ensures width > Breakpoint ==> r.taskViewActive && r.scheduleViewActive
    ensures width == Breakpoint || (width < Breakpoint && v.isMobile) ==> r == v
  {
    if width < Breakpoint then
      if !v.isMobile then Views(true, true, false) else v
    else if width > Breakpoint then
      Views(false, true, true)
    else
      v
  }

  /** `handleTaskButton`: show the task list only. */
  function TaskButton(v: Views): (r: Views)
    ensures r.isMobile == v.isMobile
    ensures Coherent(r) && r.taskViewActive && !r.scheduleViewActive
  {
    v.(taskViewActive := true, scheduleViewActive := false)
  }

  /** `handleScheduleButton`: show the calendar only. */
  function ScheduleButton(v: Views): (r: Views)
    ensures r.isMobile == v.isMobile
    ensures Coherent(r) && r.scheduleViewActive && !r.taskViewActive
  {
    v.(taskViewActive := false, scheduleViewActive := true)
  }

  /** Handling the same width twice is handling it once. */
  lemma ResizeIdempotent(v: Views, width: int)
    ensures Resized(Resized(v, width), width) == Resized(v, width)
  {
  }

  /** Going to mobile always lands on the task list alone. */
  lemma ResizeToMobileShowsTasks(v: Views, width: int)
    requires width < Breakpoint && !v.isMobile
    ensures Resized(v, width) == Views(true, true, false)
  {
  }
}
