/** The create-leave schema's refinement: a short-circuiting sequence of named
    checks for the active leave type, then a clause that rejects a request
    whose inactive field group is fully populated. A failing named check
    stores its message in one module-level `errorMsg`, which the message
    callback reads afterwards; the closing clause fails without storing
    anything, so its rejection reports whatever an earlier call left there. */
module CreateLeaveSchema {
  import opened LeaveRequest

  /** The `{ message, path }` value the message callback hands back. */
  datatype RefineParams = RefineParams(message: string, path: Option<seq<string>>)

  const DefaultError := RefineParams("Invalid input!", None)
  const SelectedDayRequired := RefineParams("selectedDay is required", Some(["selectedDay"]))
  const StartHourRequired := RefineParams("startHour is required", Some(["startHour"]))
  const EndHourRequired := RefineParams("endHour is required", Some(["endHour"]))
  const HourOrder := RefineParams("Start hour cannot be after the end hour", Some(["startHour", "endHour"]))
  const StartDateRequired := RefineParams("startDate is required", Some(["startDate"]))
  const EndDateRequired := RefineParams("endDate is required", Some(["endDate"]))
  const DateOrder := RefineParams("Start date cannot be after the end date", Some(["startDate", "endDate"]))

  /** A check of the refinement together with what it stores when it fails. */
  datatype NamedCheck = NamedCheck(holds: bool, onFailure: RefineParams)

  /** The error stored by the first failing check, if any check fails. */
  function FirstFailure(checks: seq<NamedCheck>): (r: Option<RefineParams>)
    ensures r.None? <==> forall i :: 0 <= i < |checks| ==> checks[i].holds
    ensures r.Some? ==> exists i :: && 0 <= i < |checks| && !checks[i].holds
                                    && r.value == checks[i].onFailure
                                    && forall j :: 0 <= j < i ==> checks[j].holds
  {
    if checks == [] then None
    else if !checks[0].holds then Some(checks[0].onFailure)
    else
      var r := FirstFailure(checks[1..]);
      assert forall i :: 1 <= i < |checks| ==> checks[i] == checks[1..][i - 1];
      r
  }

  /** `start > end` is false: the ordering checks compare with a strict `>`. */
  predicate NotAfter(start: Slot<Instant>, end: Slot<Instant>)
  {
    start.Present? && end.Present? ==> start.value <= end.value
  }

  /** The named checks of the branch `val.leaveType` selects, in evaluation
      order: four for Hours, three for Days, none for any other value. Every
      one of them stores a message with a path. */
  function NamedChecks(val: LeaveRequest): (c: seq<NamedCheck>)
    ensures |c| == match val.leaveType case Hours => 4 case Days => 3 case Unlisted(_) => 0
    ensures forall i :: 0 <= i < |c| ==> c[i].onFailure.path.Some? && c[i].onFailure != DefaultError
  {
    match val.leaveType
    case Hours => [
      NamedCheck(val.selectedDay.Present?, SelectedDayRequired),
      NamedCheck(val.startHour.Present?, StartHourRequired),
      NamedCheck(val.endHour.Present?, EndHourRequired),
      NamedCheck(NotAfter(val.startHour, val.endHour), HourOrder)]
    case Days => [
      NamedCheck(val.startDate.Present?, StartDateRequired),
      NamedCheck(val.endDate.Present?, EndDateRequired),
      NamedCheck(NotAfter(val.startDate, val.endDate), DateOrder)]
    case Unlisted(_) => []
  }

  /** The closing clause of a branch: the other group is not fully populated.
      It fails only for Hours with both dates populated or Days with all three
      hour-group fields populated. */
  predicate InactiveGroupIncomplete(val: LeaveRequest): (ok: bool)
    ensures val.leaveType.Unlisted? ==> ok
    ensures !ok ==> ((val.leaveType.Hours? && val.startDate.Present? && val.endDate.Present?)
                  || (val.leaveType.Days? && val.selectedDay.Present? && val.startHour.Present? && val.endHour.Present?))
  {
    match val.leaveType
    case Hours => !val.startDate.Present? || !val.endDate.Present?
    case Days => !val.selectedDay.Present? || !val.startHour.Present? || !val.endHour.Present?
    case Unlisted(_) => true
  }

  /** The outcome of one run of the refinement: accepted, rejected by a named
      check (which stores `params`), or rejected by the closing clause (which
      stores nothing). */
  datatype Verdict = Passes | FailsWith(params: RefineParams) | FailsUnrecorded

  /** The refinement predicate together with what it stores: a named failure
      always carries a path, acceptance needs the closing clause to hold, and
      a value outside the enumeration is accepted. */
  function Refinement(val: LeaveRequest): (v: Verdict)
    ensures v.FailsWith? ==> v.params.path.Some? && v.params != DefaultError
    ensures v.Passes? ==> InactiveGroupIncomplete(val)
    ensures val.leaveType.Unlisted? ==> v == Passes
  {
    match FirstFailure(NamedChecks(val))
    case Some(p) => FailsWith(p)
    case None => if InactiveGroupIncomplete(val) then Passes else FailsUnrecorded
  }

  /** The checks of `NamedChecks`, evaluated one after the other. */
  lemma {:induction false} RefinementStepwise(val: LeaveRequest)
    ensures Refinement(val) ==
      match val.leaveType
      case Hours =>
        if !val.selectedDay.Present? then FailsWith(SelectedDayRequired)
        else if !val.startHour.Present? then FailsWith(StartHourRequired)
        else if !val.endHour.Present? then FailsWith(EndHourRequired)
        else if val.startHour.value > val.endHour.value then FailsWith(HourOrder)
        else if !val.startDate.Present? || !val.endDate.Present? then Passes
        else FailsUnrecorded
      case Days =>
        if !val.startDate.Present? then FailsWith(StartDateRequired)
        else if !val.endDate.Present? then FailsWith(EndDateRequired)
        else if val.startDate.value > val.endDate.value then FailsWith(DateOrder)
        else if !val.selectedDay.Present? || !val.startHour.Present? || !val.endHour.Present? then Passes
        else FailsUnrecorded
      case Unlisted(_) => Passes
  {
    var c := NamedChecks(val);
    if val.leaveType.Hours? {
      assert c == [c[0]] + ([c[1]] + ([c[2]] + ([c[3]] + [])));
      FirstFailureCons(c[3], []);
      FirstFailureCons(c[2], [c[3]]);
      FirstFailureCons(c[1], [c[2]] + [c[3]]);
      FirstFailureCons(c[0], [c[1]] + ([c[2]] + [c[3]]));
    } else if val.leaveType.Days? {
      assert c == [c[0]] + ([c[1]] + ([c[2]] + []));
      FirstFailureCons(c[2], []);
      FirstFailureCons(c[1], [c[2]]);
      FirstFailureCons(c[0], [c[1]] + [c[2]]);
    }
  }

  lemma FirstFailureCons(c: NamedCheck, rest: seq<NamedCheck>)
    ensures FirstFailure([c] + rest) == if c.holds then FirstFailure(rest) else Some(c.onFailure)
  {
    assert ([c] + rest)[1..] == rest;
  }

  /** The shared message after one run of the refinement that started from
      `e`: it changes only on a named-check failure. */
  function Recorded(e: RefineParams, val: LeaveRequest): (m: RefineParams)
    ensures !Refinement(val).FailsWith? ==> m == e
    ensures m != e ==> m.path.Some?
  {
    if Refinement(val).FailsWith? then Refinement(val).params else e
  }

  /** The refinement together with the module-level message it writes and the
      message callback that reads it. */
  class Validator {
    var errorMsg: RefineParams
    /** Every request the refinement has run on, in order. */
    ghost var calls: seq<LeaveRequest>

    /** The shared message is the one the calls so far have left. */
    ghost predicate Valid()
      reads this
    {
      errorMsg == AfterCalls(DefaultError, calls)
    }

    constructor ()
      ensures Valid() && calls == []
      ensures errorMsg == DefaultError
    {
      errorMsg := DefaultError;
      calls := [];
    }

    /** The refinement predicate: returns whether `val` is accepted and, on a
        named-check failure, stores that check's message and path. */
    method Validate(val: LeaveRequest) returns (ok: bool)
      requires Valid()
      modifies this
      ensures Valid() && calls == old(calls) + [val]
      ensures ok <==> Refinement(val).Passes?
      ensures errorMsg == Recorded(old(errorMsg), val)
    {
      RefinementStepwise(val);
      AfterCallsSnoc(DefaultError, calls, val);
      calls := calls + [val];
      if val.leaveType.Hours? {
        if !val.selectedDay.Present? {
          errorMsg := SelectedDayRequired;
          return false;
        }
        if !val.startHour.Present? {
          errorMsg := StartHourRequired;
          return false;
        }
        if !val.endHour.Present? {
          errorMsg := EndHourRequired;
          return false;
        }
        if val.startHour.value > val.endHour.value {
          errorMsg := HourOrder;
          return false;
        }
        return !val.startDate.Present? || !val.endDate.Present?;
      }
      if val.leaveType.Days? {
        if !val.startDate.Present? {
          errorMsg := StartDateRequired;
          return false;
        }
        if !val.endDate.Present? {
          errorMsg := EndDateRequired;
          return false;
        }
        if val.startDate.value > val.endDate.value {
          errorMsg := DateOrder;
          return false;
        }
        return !val.selectedDay.Present? || !val.startHour.Present? || !val.endHour.Present?;
      }
      return true;
    }

    /** Parsing a candidate: the base shape first, then the refinement; a
        refinement failure reports what the message callback reads from
        `errorMsg` once the refinement has run. */
    method SafeParse(val: LeaveRequest, syn: Syntax) returns (r: ParseResult)
      requires Valid()
      modifies this
      ensures Valid()
      ensures !BaseShapeOk(val, syn) ==> r == ShapeError && errorMsg == old(errorMsg) && calls == old(calls)
      ensures BaseShapeOk(val, syn) ==> errorMsg == Recorded(old(errorMsg), val) && calls == old(calls) + [val]
      ensures BaseShapeOk(val, syn) && Refinement(val).Passes? ==> r == Parsed(val)
      ensures BaseShapeOk(val, syn) && Refinement(val).FailsWith? ==> r == RefineError(Refinement(val).params)
      ensures BaseShapeOk(val, syn) && Refinement(val).FailsUnrecorded? ==> r == RefineError(old(errorMsg))
      ensures BaseShapeOk(val, syn) && Refinement(val).FailsUnrecorded? ==>
        r == RefineError(match LastRecorded(old(calls)) case Some(p) => p case None => DefaultError)
    {
      if !BaseShapeOk(val, syn) {
        return ShapeError;
      }
      AfterCallsIsLastRecorded(DefaultError, calls);
      var ok := Validate(val);
      if ok {
        r := Parsed(val);
      } else {
        r := RefineError(errorMsg);
      }
    }
  }

  datatype ParseResult = Parsed(data: LeaveRequest) | ShapeError | RefineError(issue: RefineParams)

  /** Accepted exactly when every required field of the active branch is
      populated, its start is not after its end, and the inactive group is
      not fully populated; a value outside the enumeration is accepted. */
  lemma {:induction false} RefinementAccepts(val: LeaveRequest)
    ensures Refinement(val).Passes? <==>
      match val.leaveType
      case Hours =>
        && val.selectedDay.Present? && val.startHour.Present? && val.endHour.Present?
        && val.startHour.value <= val.endHour.value
        && (!val.startDate.Present? || !val.endDate.Present?)
      case Days =>
        && val.startDate.Present? && val.endDate.Present?
        && val.startDate.value <= val.endDate.value
        && (!val.selectedDay.Present? || !val.startHour.Present? || !val.endHour.Present?)
      case Unlisted(_) => true
  {
    RefinementStepwise(val);
  }

  /** Hours: a missing or null `selectedDay` is reported first, whatever the
      other fields hold; then `startHour`, then `endHour`. */
  lemma HoursRequiredInOrder(val: LeaveRequest)
    requires val.leaveType.Hours?
    ensures !val.selectedDay.Present? ==> Refinement(val) == FailsWith(SelectedDayRequired)
    ensures val.selectedDay.Present? && !val.startHour.Present? ==> Refinement(val) == FailsWith(StartHourRequired)
    ensures (val.selectedDay.Present? && val.startHour.Present? && !val.endHour.Present?)
              ==> Refinement(val) == FailsWith(EndHourRequired)
  {
    RefinementStepwise(val);
  }

  /** Hours with all three fields populated: rejected with the joint path
      exactly when the start hour is strictly after the end hour. */
  lemma HoursOrdering(val: LeaveRequest)
    requires val.leaveType.Hours?
    requires val.selectedDay.Present? && val.startHour.Present? && val.endHour.Present?
    ensures Refinement(val) == FailsWith(HourOrder) <==> val.startHour.value > val.endHour.value
    ensures val.startHour.value <= val.endHour.value ==> !Refinement(val).FailsWith?
  {
    RefinementStepwise(val);
  }

  /** Days: `startDate` is required, then `endDate`, then the start must not be
      after the end (equal dates pass). */
  lemma DaysRequiredAndOrdering(val: LeaveRequest)
    requires val.leaveType.Days?
    ensures !val.startDate.Present? ==> Refinement(val) == FailsWith(StartDateRequired)
    ensures val.startDate.Present? && !val.endDate.Present? ==> Refinement(val) == FailsWith(EndDateRequired)
    ensures (val.startDate.Present? && val.endDate.Present?)
              ==> (Refinement(val) == FailsWith(DateOrder) <==> val.startDate.value > val.endDate.value)
  {
    RefinementStepwise(val);
  }

  /** Once the active branch's fields are populated and ordered, the closing
      clause alone decides: Hours is accepted exactly when a date is missing or
      null, Days exactly when an hour-group field is, and otherwise the request
      is rejected without a message of its own. */
  lemma ClosingClauseDecides(val: LeaveRequest)
    ensures (&& val.leaveType.Hours?
             && val.selectedDay.Present? && val.startHour.Present? && val.endHour.Present?
             && val.startHour.value <= val.endHour.value)
            ==> Refinement(val) == if !val.startDate.Present? || !val.endDate.Present? then Passes else FailsUnrecorded
    ensures (&& val.leaveType.Days?
             && val.startDate.Present? && val.endDate.Present?
             && val.startDate.value <= val.endDate.value)
            ==> Refinement(val) ==
                  if !val.selectedDay.Present? || !val.startHour.Present? || !val.endHour.Present? then Passes
                  else FailsUnrecorded
  {
    RefinementStepwise(val);
  }

  /** A leave type outside the enumeration passes the refinement, but never
      reaches it through a parse, because the base shape refuses it. */
  lemma UnlistedPasses(val: LeaveRequest, syn: Syntax)
    requires val.leaveType.Unlisted?
    ensures Refinement(val) == Passes
    ensures !BaseShapeOk(val, syn)
  {
    RefinementStepwise(val);
  }

  /** The shared message after a sequence of calls, in call order. It keeps
      its initial value while no call fails a named check. */
  function AfterCalls(e: RefineParams, calls: seq<LeaveRequest>): (m: RefineParams)
    ensures (forall i :: 0 <= i < |calls| ==> !Refinement(calls[i]).FailsWith?) ==> m == e
    ensures m != e ==> m.path.Some?
    decreases |calls|
  {
    if calls == [] then e
    else
      assert forall i :: 1 <= i < |calls| ==> calls[1..][i - 1] == calls[i];
      AfterCalls(Recorded(e, calls[0]), calls[1..])
  }

  /** The message a call stores, if it fails a named check. */
  function Stored(val: LeaveRequest): (m: Option<RefineParams>)
    ensures m.Some? <==> Refinement(val).FailsWith?
    ensures m.Some? ==> m.value == Refinement(val).params
  {
    if Refinement(val).FailsWith? then Some(Refinement(val).params) else None
  }

  /** The messages a sequence of calls stores, one entry per call. */
  function StoredMessages(calls: seq<LeaveRequest>): (s: seq<Option<RefineParams>>)
    ensures |s| == |calls|
    ensures forall i :: 0 <= i < |calls| ==> s[i] == Stored(calls[i])
  {
    seq(|calls|, i requires 0 <= i < |calls| => Stored(calls[i]))
  }

  /** The latest stored message: none exactly when nothing was stored, and
      otherwise an entry after which nothing was stored. */
  function LastOf(stored: seq<Option<RefineParams>>): (r: Option<RefineParams>)
    ensures r.None? <==> forall i :: 0 <= i < |stored| ==> stored[i].None?
    ensures r.Some? ==> exists i :: && 0 <= i < |stored| && stored[i] == r
                                    && forall j :: i < j < |stored| ==> stored[j].None?
    decreases |stored|
  {
    if stored == [] then None
    else if stored[|stored| - 1].Some? then stored[|stored| - 1]
    else
      var init := stored[..|stored| - 1];
      assert forall i :: 0 <= i < |init| ==> init[i] == stored[i];
      LastOf(init)
  }

  /** The message stored by the most recent named-check failure in `calls`. */
  function LastRecorded(calls: seq<LeaveRequest>): (r: Option<RefineParams>)
    ensures calls != [] && Refinement(calls[|calls| - 1]).FailsWith? ==> r == Some(Refinement(calls[|calls| - 1]).params)
  {
    LastOf(StoredMessages(calls))
  }

  lemma StoredMessagesSnoc(calls: seq<LeaveRequest>, val: LeaveRequest)
    ensures StoredMessages(calls + [val]) == StoredMessages(calls) + [Stored(val)]
  {
    var a, b := StoredMessages(calls + [val]), StoredMessages(calls) + [Stored(val)];
    assert |a| == |b|;
    forall i | 0 <= i < |a| ensures a[i] == b[i] {
      if i < |calls| { assert (calls + [val])[i] == calls[i]; }
    }
  }

  /** A call that stores nothing leaves the latest stored message as it was. */
  lemma LastRecordedSnoc(calls: seq<LeaveRequest>, val: LeaveRequest)
    ensures LastRecorded(calls + [val]) == if Refinement(val).FailsWith? then Some(Refinement(val).params) else LastRecorded(calls)
  {
    StoredMessagesSnoc(calls, val);
    var s := StoredMessages(calls) + [Stored(val)];
    assert s[..|s| - 1] == StoredMessages(calls);
  }

  lemma {:induction false} AfterCallsSnoc(e: RefineParams, calls: seq<LeaveRequest>, val: LeaveRequest)
    ensures AfterCalls(e, calls + [val]) == Recorded(AfterCalls(e, calls), val)
    decreases |calls|
  {
    if calls == [] {
      assert [] + [val] == [val];
    } else {
      assert (calls + [val])[1..] == calls[1..] + [val];
      AfterCallsSnoc(Recorded(e, calls[0]), calls[1..], val);
    }
  }

  /** After any sequence of calls the shared message is the one stored by the
      latest named-check failure, or the initial one if there was none. */
  lemma {:induction false} AfterCallsIsLastRecorded(e: RefineParams, calls: seq<LeaveRequest>)
    ensures AfterCalls(e, calls) == match LastRecorded(calls) case Some(p) => p case None => e
    decreases |calls|
  {
    if calls != [] {
      var init, last := calls[..|calls| - 1], calls[|calls| - 1];
      assert calls == init + [last];
      AfterCallsSnoc(e, init, last);
      LastRecordedSnoc(init, last);
      AfterCallsIsLastRecorded(e, init);
    }
  }

  /** A rejection by the closing clause reports the message of the latest
      named-check failure among the earlier calls of the same validator,
      or the default message if there was none. */
  lemma StaleReport(history: seq<LeaveRequest>, val: LeaveRequest)
    requires Refinement(val).FailsUnrecorded?
    ensures AfterCalls(DefaultError, history + [val]) ==
      match LastRecorded(history) case Some(p) => p case None => DefaultError
  {
    AfterCallsIsLastRecorded(DefaultError, history + [val]);
    LastRecordedSnoc(history, val);
  }

  /** The message the closing clause reports depends on earlier calls: the
      same fully populated Days request is reported with the default message
      on a fresh validator, and as a missing `selectedDay` after an Hours
      request without one. */
  method StaleMessageDemo(hoursNoDay: LeaveRequest, daysFull: LeaveRequest, syn: Syntax)
    returns (alone: ParseResult, afterHours: ParseResult)
    requires BaseShapeOk(hoursNoDay, syn) && hoursNoDay.leaveType.Hours? && !hoursNoDay.selectedDay.Present?
    requires BaseShapeOk(daysFull, syn) && daysFull.leaveType.Days?
    requires daysFull.startDate.Present? && daysFull.endDate.Present?
    requires daysFull.startDate.value <= daysFull.endDate.value
    requires daysFull.selectedDay.Present? && daysFull.startHour.Present? && daysFull.endHour.Present?
    ensures alone == RefineError(DefaultError)
    ensures afterHours == RefineError(SelectedDayRequired)
  {
    var single := new Validator();
    alone := single.SafeParse(daysFull, syn);
    var reused := new Validator();
    var first := reused.SafeParse(hoursNoDay, syn);
    afterHours := reused.SafeParse(daysFull, syn);
  }

  /** The error a rejection should report, computed from the request alone:
      the failing named check's message, or the default message when the
      closing clause rejects. */
  function Diagnose(val: LeaveRequest): (d: Option<RefineParams>)
    ensures d.None? <==> Refinement(val).Passes?
    ensures forall e, history :: d.Some? && !Refinement(val).FailsUnrecorded?
              ==> d.value == AfterCalls(e, history + [val])
    ensures Refinement(val).FailsUnrecorded? ==> d == Some(DefaultError)
  {
    match Refinement(val)
    case Passes => None
    case FailsWith(p) =>
      assert forall e, history :: AfterCalls(e, history + [val]) == p by {
        forall e, history ensures AfterCalls(e, history + [val]) == p {
          AfterCallsSnoc(e, history, val);
        }
      }
      Some(p)
    case FailsUnrecorded => Some(DefaultError)
  }

  /** The corrected report coincides with what a fresh validator reports, so
      it no longer depends on earlier calls. */
  lemma DiagnoseMatchesFreshValidator(val: LeaveRequest)
    requires !Refinement(val).Passes?
    ensures Diagnose(val) == Some(AfterCalls(DefaultError, [val]))
  {
    AfterCallsSnoc(DefaultError, [], val);
    assert [] + [val] == [val];
  }
}
