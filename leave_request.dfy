/** The leave-request record as the create-leave schema receives it, and the
    schema's base field shape (every check that runs before the refinement). */
module LeaveRequest {

  datatype Option<+T> = None | Some(value: T)

  /** One property of a JavaScript object: the key may be missing (undefined),
      hold null, or hold a value. A `Present` date is always truthy: a Date
      object is truthy whatever instant it holds. */
  datatype Slot<+T> = Absent | Null | Present(value: T)

  /** The leave-type discriminator. `Unlisted` stands for any value outside the
      enumeration; the base shape rejects it, but the refinement has a branch
      for it. */
  datatype LeaveType = Days | Hours | Unlisted(name: string)

  /** Dates and times are their millisecond timestamps (`valueOf()`), which is
      what `>` on two Date objects compares. */
  type Instant = int

  datatype LeaveRequest = LeaveRequest(
    employeeId: string,
    firstName: string,
    lastName: string,
    email: string,
    department: string,
    leaveReason: string,
    comments: Slot<string>,
    leaveType: LeaveType,
    startDate: Slot<Instant>,
    endDate: Slot<Instant>,
    selectedDay: Slot<Instant>,
    startHour: Slot<Instant>,
    endHour: Slot<Instant>)

  /** The syntax checks the schema delegates to its validation library (ID
      and e-mail formats) and the membership tests of the two database
      enumerations whose members this model does not see. */
  datatype Syntax = Syntax(
    isCuid: string -> bool,
    isEmail: string -> bool,
    isDepartment: string -> bool,
    isLeaveReason: string -> bool)

  /** The base shape: non-empty names, optional (but not null) comments, a
      listed leave type, start and end dates that must be present as keys
      but may be null, and hour fields that may be missing or null. */
  predicate BaseShapeOk(r: LeaveRequest, syn: Syntax): (ok: bool)
    ensures ok ==> (r.leaveType.Days? || r.leaveType.Hours?)
    ensures ok ==> r.startDate != Absent && r.endDate != Absent && r.comments != Null
    ensures ok ==> r.firstName != [] && r.lastName != []
  {
    && syn.isCuid(r.employeeId)
    && |r.firstName| >= 1
    && |r.lastName| >= 1
    && syn.isEmail(r.email)
    && syn.isDepartment(r.department)
    && syn.isLeaveReason(r.leaveReason)
    && !r.comments.Null?
    && !r.leaveType.Unlisted?
    && !r.startDate.Absent?
    && !r.endDate.Absent?
  }

  /** Which of the date/time fields may be missing or null: the three hour-group
      fields may be either, the two date-range fields may be null but not
      missing, and the comments may be missing; an empty name is refused. */
  lemma BaseShapeOptionality(r: LeaveRequest, syn: Syntax, day: Slot<Instant>, from: Slot<Instant>, to: Slot<Instant>)
    requires BaseShapeOk(r, syn)
    ensures BaseShapeOk(r.(selectedDay := day, startHour := from, endHour := to), syn)
    ensures BaseShapeOk(r.(startDate := Null), syn) && BaseShapeOk(r.(endDate := Null), syn)
    ensures !BaseShapeOk(r.(startDate := Absent), syn) && !BaseShapeOk(r.(endDate := Absent), syn)
    ensures BaseShapeOk(r.(comments := Absent), syn) && !BaseShapeOk(r.(comments := Null), syn)
    ensures !BaseShapeOk(r.(firstName := ""), syn) && !BaseShapeOk(r.(lastName := ""), syn)
    ensures forall name :: !BaseShapeOk(r.(leaveType := Unlisted(name)), syn)
  {
  }
}
