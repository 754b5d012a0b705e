# Leave-request validation, modelled in Dafny

A model of the one piece of logic in a small leave-request application: the
create-leave schema that validates a leave request, and the leave form's
submit handler that normalises the request before sending it.

A leave request is one flat record. Its `leaveType` is `Days` or `Hours`, and
it has two groups of optional date/time fields: `startDate`/`endDate` for
`Days`, and `selectedDay`/`startHour`/`endHour` for `Hours`. The schema first
checks the base shape of every field. Then a refinement runs a fixed,
short-circuiting sequence of checks for the active group: required fields,
then a strict start-after-end ordering check. A failing check stores its
message and path in one module-level `errorMsg`, and the message callback
reads that variable afterwards. The refinement ends with a clause that
rejects a request whose inactive group is fully populated. That clause does
not store anything, so its rejection reports whatever an earlier call left in
`errorMsg`. Initially that is `'Invalid input!'` with no path.

Modules:

- `LeaveRequest` (`leave_request.dfy`): the record, with each field that may be
  missing or null as a `Slot` (`Absent | Null | Present(v)`), dates as their
  millisecond timestamps, and the base shape `BaseShapeOk`.
- `CreateLeaveSchema` (`create_leave_schema.dfy`): the refinement as a list of
  named checks (`NamedChecks`, `FirstFailure`, `Refinement`). The class
  `Validator` holds the shared `errorMsg`, and its `Validate` method is the
  refinement with its early returns. `SafeParse` adds the base shape and the
  message callback. The module also has the lemmas about the message left
  behind by a sequence of calls.
- `LeaveForm` (`leave_form.dfy`): the form values as a mutable object
  (`LeaveValues`), the submit handler `HandleSubmit` with its pure payload
  function `Submitted`, the date-range handler `Form.OnDateRangeChange`, and
  the initial values.

Behaviour of the code worth knowing:

- The code rejects a request whose inactive group is fully populated. It does
  not clear that group.
- The error message is shared between calls.
- Equal start and end values pass, because the comparison is a strict `>`.
- Any leave type outside the enumeration passes the refinement, but the base
  shape refuses it first.

## Model

| member | source | states |
|---|---|---|
| `LeaveRequest.BaseShapeOptionality` | src/server/routers/leaves/schema/create-leave.schema.ts:19-46 | the hour-group fields may be missing or null; `startDate`/`endDate` may be null but not missing; `comments` may be missing but not null; empty names and unlisted leave types are refused |
| `LeaveRequest.BaseShapeOk` | src/server/routers/leaves/schema/create-leave.schema.ts:19-46 | the base shape: a passing record has a Days or Hours leave type, non-empty names, both date keys present (possibly null) and non-null comments; ID, e-mail and enumeration membership are opaque predicates |
| `CreateLeaveSchema.NamedChecks` | src/server/routers/leaves/schema/create-leave.schema.ts:49-102 | the named checks of the active branch in evaluation order (four for Hours, three for Days, none otherwise), each with a message and a path |
| `CreateLeaveSchema.InactiveGroupIncomplete` | src/server/routers/leaves/schema/create-leave.schema.ts:79-104 | the closing clause: fails only for Hours with both dates populated or Days with all three hour-group fields populated, and never for an unlisted type |
| `CreateLeaveSchema.Refinement` | src/server/routers/leaves/schema/create-leave.schema.ts:47-107 | the refinement's outcome: the first failing named check (always with a path), else acceptance exactly when the closing clause holds, else a rejection that stores nothing; unlisted types pass |
| `CreateLeaveSchema.Recorded` | src/server/routers/leaves/schema/create-leave.schema.ts:16-100 | the shared message after one call: it changes only on a named-check failure, to a message with a path |
| `CreateLeaveSchema.Stored` | src/server/routers/leaves/schema/create-leave.schema.ts:51-100 | the message one call stores: present exactly when the call fails a named check |
| `CreateLeaveSchema.AfterCalls` | src/server/routers/leaves/schema/create-leave.schema.ts:16-108 | the shared message after a sequence of calls in order; it keeps its initial value while no call fails a named check |
| `CreateLeaveSchema.LastRecorded` | src/server/routers/leaves/schema/create-leave.schema.ts:16-108 | the message of the latest named-check failure in a call sequence; a final call that fails a named check determines it |
| `CreateLeaveSchema.LastOf` | src/server/routers/leaves/schema/create-leave.schema.ts:16-108 | the latest stored message of a sequence: none exactly when nothing was stored, otherwise an entry after which nothing was stored |
| `CreateLeaveSchema.FirstFailure` | src/server/routers/leaves/schema/create-leave.schema.ts:49-102 | the reported error is that of the first failing check: no check before it fails, and it is `None` exactly when every check holds |
| `CreateLeaveSchema.RefinementStepwise` | src/server/routers/leaves/schema/create-leave.schema.ts:49-106 | the list of named checks, followed by the closing clause, gives the same outcome as the nested early returns of each branch |
| `CreateLeaveSchema.RefinementAccepts` | src/server/routers/leaves/schema/create-leave.schema.ts:47-107 | both directions: accepted iff the active branch's fields are all populated, its start is not after its end, and the inactive group is not fully populated; unlisted types are accepted |
| `CreateLeaveSchema.HoursRequiredInOrder` | src/server/routers/leaves/schema/create-leave.schema.ts:49-70 | for Hours, a missing `selectedDay` gives `'selectedDay is required'` at `['selectedDay']` whatever else holds; then `startHour`, then `endHour`, each with its own message and path |
| `CreateLeaveSchema.HoursOrdering` | src/server/routers/leaves/schema/create-leave.schema.ts:71-77 | with all three hour fields populated, rejection at `['startHour','endHour']` happens exactly when start > end; equal hours pass the check |
| `CreateLeaveSchema.DaysRequiredAndOrdering` | src/server/routers/leaves/schema/create-leave.schema.ts:81-102 | for Days, `startDate` is required, then `endDate`; with both present, rejection at `['startDate','endDate']` happens exactly when start > end |
| `CreateLeaveSchema.ClosingClauseDecides` | src/server/routers/leaves/schema/create-leave.schema.ts:79-104 | Hours with its fields populated and ordered is accepted iff `startDate` or `endDate` is missing or null; Days with its dates populated and ordered is accepted iff one hour-group field is missing or null; otherwise rejected with no stored message |
| `CreateLeaveSchema.UnlistedPasses` | src/server/routers/leaves/schema/create-leave.schema.ts:106 | a leave type outside the enumeration passes the refinement, and the base shape refuses it |
| `CreateLeaveSchema.Validator.constructor` | src/server/routers/leaves/schema/create-leave.schema.ts:16 | the shared message starts as `'Invalid input!'` with no path, and no call has run yet |
| `CreateLeaveSchema.Validator.Validate` | src/server/routers/leaves/schema/create-leave.schema.ts:47-107 | returns the refinement's verdict; stores the failing named check's message and path; leaves `errorMsg` unchanged on acceptance and on a closing-clause rejection; appends the request to the ghost call history and keeps `errorMsg == AfterCalls(DefaultError, calls)` |
| `CreateLeaveSchema.Validator.SafeParse` | src/server/routers/leaves/schema/create-leave.schema.ts:18-109 | base shape first, touching nothing on failure; then the refinement; a closing-clause rejection reports the message of the latest named-check failure among this validator's earlier calls, or `'Invalid input!'` |
| `CreateLeaveSchema.AfterCallsIsLastRecorded` | src/server/routers/leaves/schema/create-leave.schema.ts:47-108 | after any sequence of calls, `errorMsg` is the message of the latest named-check failure, or the initial one if there was none |
| `CreateLeaveSchema.StaleReport` | src/server/routers/leaves/schema/create-leave.schema.ts:108 | a closing-clause rejection reports the message of the latest named-check failure among the earlier calls, or `'Invalid input!'` |
| `CreateLeaveSchema.StaleMessageDemo` | src/server/routers/leaves/schema/create-leave.schema.ts:51-108 | the same fully populated Days request is reported as `'Invalid input!'` on a fresh validator and as `'selectedDay is required'` after an Hours request without `selectedDay` |
| `CreateLeaveSchema.Diagnose` | src/server/routers/leaves/schema/create-leave.schema.ts:108 | the corrected report: none exactly on acceptance; the failing check's own message for every history; the default message for a closing-clause rejection |
| `CreateLeaveSchema.DiagnoseMatchesFreshValidator` | src/server/routers/leaves/schema/create-leave.schema.ts:16-108 | the corrected report equals what a fresh validator reports for the same request |
| `LeaveForm.LeaveValues.constructor` | src/components/leave-form.tsx:71-72 | an object literal holding a given record |
| `LeaveForm.LeaveValues.Snapshot` | src/components/leave-form.tsx:67-68 | the record a values object currently holds, field for field |
| `LeaveForm.Submitted` | src/components/leave-form.tsx:67-76 | the payload holds only the active group: Days drops the three hour keys, anything else nulls both dates; every other field and the active group are unchanged |
| `LeaveForm.HandleSubmit` | src/components/leave-form.tsx:67-79 | sends `Submitted(values)`; for Days a fresh object, leaving `values` unchanged; otherwise the same object, whose dates are now null |
| `LeaveForm.SubmittedIdempotent` | src/components/leave-form.tsx:70-76 | normalising an already normalised record changes nothing |
| `LeaveForm.SubmittedKeepsBaseShape` | src/components/leave-form.tsx:70-76 | a record within the base shape stays within it after normalisation |
| `LeaveForm.SubmittedPassesRefinement` | src/components/leave-form.tsx:70-76 | if the named checks pass, the normalised record passes the whole refinement, closing clause included; a named failure stays the same failure |
| `LeaveForm.RangeEnd` | src/components/leave-form.tsx:176-181 | a picked date becomes a populated field and an unpicked end becomes null, never a missing key |
| `LeaveForm.WithDateRange` | src/components/leave-form.tsx:176-181 | sets `startDate` and `endDate` from the range and leaves every other field unchanged |
| `LeaveForm.Form.OnDateRangeChange` | src/components/leave-form.tsx:176-182 | replaces the form values with a fresh object holding `WithDateRange` of the old ones; the old object is untouched |
| `LeaveForm.InitialValues` | src/components/leave-form.tsx:47-64 | Days, `IT`, `Vacation`, empty identity strings and comments, and all five date/time fields populated |
| `LeaveForm.InitialValuesRejected` | src/components/leave-form.tsx:47-64 | the initial values fail the base shape, and the Days closing clause rejects them unless the start date is after the end date, which fails the ordering check instead |
| `LeaveForm.RangeNeverClearsHourGroup` | src/components/leave-form.tsx:176-181 | a Days record with a populated hour group is never accepted after a date-range change, whatever range is picked |
| `LeaveForm.Form.constructor` | src/components/leave-form.tsx:45-65 | the form starts with a fresh values object holding the initial values |

## Left out

- The ID and e-mail syntax checks are library regular expressions that this model does not see. They are opaque predicates in `Syntax`.
- The members of the database enumerations for department and leave reason are not part of this model. Membership is an opaque predicate in `Syntax`; only the values `'IT'` and `'Vacation'` used by the form appear.
- A non-Date value in a date or time field (the `'Invalid Time'` type error) is not representable: every populated field holds a timestamp.
- The validation library's own ordering of base-shape issues against the refinement is modelled only as "base shape, then refinement". The library can run the refinement after a non-fatal base issue, and so update `errorMsg` then; the model does not.
- The time parser used for the initial hours reads the clock. Its results and every `new Date()` are parameters of `InitialValues` and of the `Form` constructor.
- Rendering, the pickers' configuration (minimum and maximum dates, the excluded Friday, weekend days), the handlers of the other inputs and the mapping of error keys to display text are user interface.
- The network call that sends the submitted record, the remote-procedure plumbing and the database insert are side effects outside this model.
- The form library's own validation step before the submit handler runs is not part of this model, so `HandleSubmit` is not composed with `SafeParse`.
- `Diagnose` is a corrected definition stated beside the model. `Validator` and `SafeParse` keep the behaviour of the code as written.

## Findings

| source | as written | input that shows it | evidently intended | confidence | as-written member | corrected member |
|---|---|---|---|---|---|---|
| src/server/routers/leaves/schema/create-leave.schema.ts:104 | the closing clause rejects without setting `errorMsg`, so the callback reports the message of an unrelated earlier call | an Hours request without `selectedDay`, then a Days request with ordered dates and all three hour fields populated: the second is reported as `'selectedDay is required'` at `['selectedDay']` | each rejection reports an error determined by the request alone | high (not executed) | `CreateLeaveSchema.StaleMessageDemo` | `CreateLeaveSchema.Diagnose` |
