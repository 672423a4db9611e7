/** The small classifiers of the clock display: the time-of-day greeting, the
    viewport breakpoint that picks the body's view class, and the clamp that
    keeps the draggable theme panel on screen. */
module Layout {
  import opened Wrappers

  /** `getTimeOfDay` (and the hardened client's `getTimePeriod`) on the
      local hour of the day. */
  function TimeOfDay(hour: int): (r: string)
    ensures r == "Morning" <==> hour < 12
    ensures r == "Afternoon" <==> 12 <= hour < 17
    ensures r == "Evening" <==> 17 <= hour < 21
    ensures r == "Night" <==> 21 <= hour
  {
    if hour < 12 then "Morning"
    else if hour < 17 then "Afternoon"
    else if hour < 21 then "Evening"
    else "Night"
  }

  /** Position of a period in the day. */
  function PeriodRank(p: string): int {
    if p == "Morning" then 0
    else if p == "Afternoon" then 1
    else if p == "Evening" then 2
    else 3
  }

  /** As the hour grows the greeting only moves forward through the day:
      Morning, Afternoon, Evening, Night. */
  lemma TimeOfDayMonotone(h1: int, h2: int)
    requires h1 <= h2
    ensures PeriodRank(TimeOfDay(h1)) <= PeriodRank(TimeOfDay(h2))
  {
  }

  /** The three body classes `applyResponsiveAdjustments` manages. */
  const ViewClasses: set<string> := {"mobile-view", "tablet-view", "desktop-view"}

  /** The breakpoint of `applyResponsiveAdjustments`. */
  function ViewClass(width: int): (c: string)
    ensures c in ViewClasses
    ensures c == "mobile-view" <==> width <= 768
    ensures c == "tablet-view" <==> 768 < width <= 1024
    ensures c == "desktop-view" <==> 1024 < width
  {
    if width <= 768 then "mobile-view"
    else if width <= 1024 then "tablet-view"
    else "desktop-view"
  }

  /** `applyResponsiveAdjustments` on the body's class list: afterwards
      exactly one view class is present, the one the width selects, and every
      other class is kept. */
  function ApplyResponsiveAdjustments(classes: set<string>, width: int): (r: set<string>)
    ensures r * ViewClasses == {ViewClass(width)}
    ensures r - ViewClasses == classes - ViewClasses
    ensures forall c :: c in ViewClasses && c in r ==> c == ViewClass(width)
  {
    (classes - ViewClasses) + {ViewClass(width)}
  }

  function Min(a: real, b: real): real {
    if a <= b then a else b
  }

  function Max(a: real, b: real): real {
    if a >= b then a else b
  }

  /** The drag handler's clamp of one offset:
      `Math.max(0, Math.min(offset, viewport - size))`. The result lies in
      `[0, max(0, viewport - size)]`, and an offset already in range is kept. */
  function DragClamp(offset: real, viewport: real, size: real): (r: real)
    ensures 0.0 <= r <= Max(0.0, viewport - size)
    ensures 0.0 <= offset <= viewport - size ==> r == offset
    ensures offset < 0.0 ==> r == 0.0
    ensures 0.0 <= viewport - size < offset ==> r == viewport - size
  {
    Max(0.0, Min(offset, viewport - size))
  }

  /** `adjustThemePanelPosition` on one axis: the upper `if` runs before the
      lower one. */
  function ResizeClamp(current: real, maxOffset: real): real {
    var c := if current > maxOffset then maxOffset else current;
    if c < 0.0 then 0.0 else c
  }

  /** The resize adjustment and the drag clamp are the same map, so both keep
      the panel inside `[0, max(0, viewport - size)]` on each axis. */
  lemma ResizeClampAgreesWithDrag(current: real, viewport: real, size: real)
    ensures ResizeClamp(current, viewport - size) == DragClamp(current, viewport, size)
    ensures 0.0 <= ResizeClamp(current, viewport - size) <= Max(0.0, viewport - size)
  {
  }

  /** `adjustThemePanelPosition`: with no transform (`'none'`) nothing moves
      and nothing is saved; otherwise the translated position is clamped on
      both axes and is the position that gets saved. */
  function AdjustPanelPosition(transform: Option<(real, real)>, innerWidth: real, innerHeight: real,
                               width: real, height: real): (r: Option<(real, real)>)
    ensures transform.None? <==> r.None?
    ensures r.Some? ==> 0.0 <= r.value.0 <= Max(0.0, innerWidth - width)
    ensures r.Some? ==> 0.0 <= r.value.1 <= Max(0.0, innerHeight - height)
    ensures r.Some? ==> r.value == (DragClamp(transform.value.0, innerWidth, width),
                                    DragClamp(transform.value.1, innerHeight, height))
  {
    match transform
    case None => None
    case Some((x, y)) =>
      ResizeClampAgreesWithDrag(x, innerWidth, width);
      ResizeClampAgreesWithDrag(y, innerHeight, height);
      Some((ResizeClamp(x, innerWidth - width), ResizeClamp(y, innerHeight - height)))
  }
}
