/** The leave form's own logic: its initial values, the date-range handler
    that replaces the form state, and the submit handler that normalises the
    record before it is sent. Rendering, the pickers' configuration and the
    network call are not modelled. */
module LeaveForm {
  import opened LeaveRequest
  import opened CreateLeaveSchema

  /** The mutable JavaScript object that holds one set of form values. */
  class LeaveValues {
    var employeeId: string
    var firstName: string
    var lastName: string
    var email: string
    var department: string
    var leaveReason: string
    var comments: Slot<string>
    var leaveType: LeaveType
    var startDate: Slot<Instant>
    var endDate: Slot<Instant>
    var selectedDay: Slot<Instant>
    var startHour: Slot<Instant>
    var endHour: Slot<Instant>

    /** The record the object currently holds, field for field. */
    function Snapshot(): (r: LeaveRequest)
      reads this
      ensures r.leaveType == leaveType
      ensures r.startDate == startDate && r.endDate == endDate
      ensures r.selectedDay == selectedDay && r.startHour == startHour && r.endHour == endHour
    {
      LeaveRequest(employeeId, firstName, lastName, email, department, leaveReason, comments,
                   leaveType, startDate, endDate, selectedDay, startHour, endHour)
    }

    /** An object literal holding `r`. */
    constructor (r: LeaveRequest)
      ensures Snapshot() == r
    {
      employeeId, firstName, lastName, email := r.employeeId, r.firstName, r.lastName, r.email;
      department, leaveReason, comments := r.department, r.leaveReason, r.comments;
      leaveType := r.leaveType;
      startDate, endDate := r.startDate, r.endDate;
      selectedDay, startHour, endHour := r.selectedDay, r.startHour, r.endHour;
    }
  }

  /** Whether `s` holds nothing of the group its leave type does not use: a
      Days record has no hour-group keys, any other record has null dates. */
  predicate OnlyActiveGroup(s: LeaveRequest)
  {
    if s.leaveType.Days? then s.selectedDay.Absent? && s.startHour.Absent? && s.endHour.Absent?
    else s.startDate.Null? && s.endDate.Null?
  }

  /** The record the submit handler sends for form values `r`. */
  function Submitted(r: LeaveRequest): (s: LeaveRequest)
    ensures OnlyActiveGroup(s)
    ensures s.(startDate := r.startDate, endDate := r.endDate,
               selectedDay := r.selectedDay, startHour := r.startHour, endHour := r.endHour) == r
    ensures r.leaveType.Days? ==> s.startDate == r.startDate && s.endDate == r.endDate
    ensures !r.leaveType.Days? ==> s.selectedDay == r.selectedDay && s.startHour == r.startHour && s.endHour == r.endHour
  {
    if r.leaveType.Days? then r.(selectedDay := Absent, startHour := Absent, endHour := Absent)
    else r.(startDate := Null, endDate := Null)
  }

  /** The submit handler. For Days it builds a new object without the three
      hour-group keys and leaves `values` alone; otherwise it nulls the two
      dates on `values` itself and sends that same object. */
  method HandleSubmit(values: LeaveValues) returns (submitted: LeaveValues)
    modifies values
    ensures submitted.Snapshot() == Submitted(old(values.Snapshot()))
    ensures old(values.leaveType).Days? ==> fresh(submitted) && unchanged(values)
    ensures !old(values.leaveType).Days? ==> submitted == values
  {
    submitted := values;
    if values.leaveType.Days? {
      var rest := values.Snapshot().(selectedDay := Absent, startHour := Absent, endHour := Absent);
      submitted := new LeaveValues(rest);
    } else {
      submitted.startDate := Null;
      submitted.endDate := Null;
    }
  }

  /** Normalising twice is normalising once. */
  lemma SubmittedIdempotent(r: LeaveRequest)
    ensures Submitted(Submitted(r)) == Submitted(r)
  {
  }

  /** Normalisation keeps a record within the base shape. */
  lemma SubmittedKeepsBaseShape(r: LeaveRequest, syn: Syntax)
    requires BaseShapeOk(r, syn)
    ensures BaseShapeOk(Submitted(r), syn)
  {
  }

  /** A record whose named checks all pass is accepted once normalised, the
      closing clause included; a named-check failure stays the same failure. */
  lemma SubmittedPassesRefinement(r: LeaveRequest)
    ensures !Refinement(r).FailsWith? ==> Refinement(Submitted(r)) == Passes
    ensures Refinement(r).FailsWith? ==> Refinement(Submitted(r)) == Refinement(r)
  {
    RefinementStepwise(r);
    RefinementStepwise(Submitted(r));
  }

  /** Converts one end of a picked range (a Date or null) to a field value. */
  function RangeEnd(d: Option<Instant>): (s: Slot<Instant>)
    ensures s.Present? <==> d.Some?
    ensures d.Some? ==> s.value == d.value
    ensures !s.Absent?
  {
    match d
    case Some(t) => Present(t)
    case None => Null
  }

  /** The record after the range picker reports `[from, to]`. */
  function WithDateRange(r: LeaveRequest, from: Option<Instant>, to: Option<Instant>): (s: LeaveRequest)
    ensures s.startDate == RangeEnd(from) && s.endDate == RangeEnd(to)
    ensures s.(startDate := r.startDate, endDate := r.endDate) == r
  {
    r.(startDate := RangeEnd(from), endDate := RangeEnd(to))
  }

  /** The form values at first render. Every `new Date()` and the two times
      parsed from `'08:00'` and `'12:00'` read the clock, so they are
      parameters. */
  function InitialValues(startNow: Instant, endNow: Instant, dayNow: Instant, eightAm: Instant, noon: Instant)
    : (r: LeaveRequest)
    ensures r.leaveType == Days && r.department == "IT" && r.leaveReason == "Vacation"
    ensures r.employeeId == r.firstName == r.lastName == r.email == "" && r.comments == Present("")
    ensures r.startDate.Present? && r.endDate.Present? && r.selectedDay.Present?
    ensures r.startHour.Present? && r.endHour.Present?
  {
    LeaveRequest("", "", "", "", "IT", "Vacation", Present(""), Days,
                 Present(startNow), Present(endNow), Present(dayNow), Present(eightAm), Present(noon))
  }

  /** The initial values fail the base shape (empty names) and the refinement:
      the hour group is fully populated, so the Days closing clause rejects
      them unless the clock went backwards between the two dates. */
  lemma InitialValuesRejected(startNow: Instant, endNow: Instant, dayNow: Instant, eightAm: Instant, noon: Instant, syn: Syntax)
    ensures !BaseShapeOk(InitialValues(startNow, endNow, dayNow, eightAm, noon), syn)
    ensures Refinement(InitialValues(startNow, endNow, dayNow, eightAm, noon)) ==
      if startNow <= endNow then FailsUnrecorded else FailsWith(DateOrder)
  {
    RefinementStepwise(InitialValues(startNow, endNow, dayNow, eightAm, noon));
  }

  /** Picking a date range changes only the two dates, so a Days record that
      started from the initial values keeps its populated hour group and is
      never accepted, whatever range is picked. */
  lemma RangeNeverClearsHourGroup(r: LeaveRequest, from: Option<Instant>, to: Option<Instant>)
    requires r.leaveType.Days?
    requires r.selectedDay.Present? && r.startHour.Present? && r.endHour.Present?
    ensures !Refinement(WithDateRange(r, from, to)).Passes?
  {
    RefinementStepwise(WithDateRange(r, from, to));
  }

  /** The form: its current values object, which handlers replace. */
  class Form {
    var values: LeaveValues

    constructor (startNow: Instant, endNow: Instant, dayNow: Instant, eightAm: Instant, noon: Instant)
      ensures fresh(values)
      ensures values.Snapshot() == InitialValues(startNow, endNow, dayNow, eightAm, noon)
    {
      values := new LeaveValues(InitialValues(startNow, endNow, dayNow, eightAm, noon));
    }

    /** The range picker's change handler: a new values object that copies the
        old one and sets the two dates; the old object is not touched. */
    method OnDateRangeChange(from: Option<Instant>, to: Option<Instant>)
      modifies this
      ensures fresh(values)
      ensures values.Snapshot() == WithDateRange(old(values.Snapshot()), from, to)
      ensures unchanged(old(values))
    {
      var next := values.Snapshot().(startDate := RangeEnd(from), endDate := RangeEnd(to));
      values := new LeaveValues(next);
    }
  }
}
