/** The laundry's open/closed indicator shown in both navigation bars: the
    students' side derives it from the clock, the staff side sets it by hand. */
module Service {

  datatype Color = Green | Red

  /** `{status, isOpen, color}` of the indicator. */
  datatype ServiceState = ServiceState(status: string, isOpen: bool, color: Color)

  /** The label and the colour agree with `isOpen`. */
  predicate Consistent(s: ServiceState)
  {
    && s.status == (if s.isOpen then "Open" else "Closed")
    && s.color == (if s.isOpen then Green else Red)
  }

  /** The indicator for an open or a closed laundry. */
  function StateFor(isOpen: bool): (s: ServiceState)
    ensures s.isOpen == isOpen && Consistent(s)
  {
    if isOpen then ServiceState("Open", true, Green) else ServiceState("Closed", false, Red)
  }

  /** `getServiceStatus` for a weekday number (0 is Sunday), hour and minute:
      open Monday to Friday from 8:30 until before 18:00. */
  function ServiceStatus(day: int, hour: int, minute: int): (s: ServiceState)
    ensures Consistent(s)
    ensures s.isOpen <==> 1 <= day <= 5 && (hour > 8 || (hour == 8 && minute >= 30)) && hour < 18
  {
    var isWeekday := 1 <= day <= 5;
    var afterStart := hour > 8 || (hour == 8 && minute >= 30);
    var beforeEnd := hour < 18;
    StateFor(isWeekday && afterStart && beforeEnd)
  }

  /** For a clock reading (minute below 60) the laundry is open exactly on
      weekdays in the half-open interval [8:30, 18:00). */
  lemma OpenInterval(day: int, hour: int, minute: int)
    requires 0 <= minute < 60
    ensures ServiceStatus(day, hour, minute).isOpen <==>
      1 <= day <= 5 && 8 * 60 + 30 <= hour * 60 + minute < 18 * 60
  {
  }

  /** The edges of the opening hours on a Monday. */
  lemma OpeningBoundaries()
    ensures !ServiceStatus(1, 8, 29).isOpen && ServiceStatus(1, 8, 30).isOpen
    ensures ServiceStatus(1, 17, 59).isOpen && !ServiceStatus(1, 18, 0).isOpen
  {
  }

  /** Saturday and Sunday are closed all day. */
  lemma ClosedAtWeekends(hour: int, minute: int)
    ensures ServiceStatus(0, hour, minute) == StateFor(false)
    ensures ServiceStatus(6, hour, minute) == StateFor(false)
  {
  }

  /** `handleStatusToggle`: flip `isOpen` and derive label and colour from it. */
  function Toggled(s: ServiceState): (r: ServiceState)
    ensures r.isOpen == !s.isOpen && Consistent(r)
  {
    StateFor(!s.isOpen)
  }

  /** Toggling twice gives back a consistent indicator unchanged. */
  lemma ToggleTwice(s: ServiceState)
    requires Consistent(s)
    ensures Toggled(Toggled(s)) == s
  {
  }
}
