# Reservation form: a verified model

This project models the local state logic of the reservation form of a small
restaurant website (`src/sections/ReservationForm.tsx`). The form keeps a
*draft* of nine fields (name, email, phone, date, time, an AM/PM period,
guest count, location, special requests) and an *error map* from field name to
message. Its behaviour is:

- **presence validation**: seven fields are required (every string field except
  the special requests). The validator writes one fixed message per empty
  required field into a fresh map, stores that map as the form's errors, and
  reports success exactly when it wrote nothing. No format, range or list
  check is made.
- **field updates**: `handleChange` replaces one named field, and
  `handleTimeChange` replaces `time` and `period` together. Both copy the draft
  immutably and leave the error map as it was.
- **the time selector** (`TimeInput`): it reports a time edit with the
  current period, and a press of the AM/PM button with the current time and
  the other period.
- **initial state and mount effect**: every string starts empty, the period
  starts as AM and there are no errors. Once mounted, the date is set to
  "today".
- **submit**: a submit attempt only runs the validator. The draft is kept and
  the form stays editable whether validation succeeds or fails.

Modules, one per component of the source file:

- `Fields` (`fields.dfy`): the `Period` and `Field` enumerations, the
  `FormData` record, and the pure updates `WithField`, `WithTime` and
  `Toggled`.
- `Validation` (`validation.dfy`): the required keys and their messages.
  `Errors` is the reference definition of the error map, written as a map
  comprehension. `BuildErrors` is the validator's step-by-step construction,
  proved equal to it. The lemmas give the if-and-only-if for validity, the
  exact key set and messages, the error count, independence from the optional
  fields, and the scenarios.
- `TimeInput` (`time_input.dfy`): the selector's two callbacks, as the
  arguments they pass to `onChange`, and lemmas about applying them to the
  draft.
- `Reservation` (`reservation.dfy`): the class `ReservationForm`, with the
  fields `formData` and `errors` that its handlers overwrite, and a client
  method that mounts a form and submits it untouched.

"Today" is a parameter of `MountEffect`. The source computes it as
`new Date().toISOString().split("T")[0]`, which is the calendar day in UTC.
Near midnight this can differ from the user's local calendar day. The model
takes the string as given.

## Model

| member | source | states |
|---|---|---|
| `Fields.Toggled` | src/sections/ReservationForm.tsx:35 | the toggled period always differs from the one given, so AM goes to PM and PM to AM |
| `Fields.ToggledTwice` | src/sections/ReservationForm.tsx:35 | toggling the period twice restores it |
| `Fields.WithField` | src/sections/ReservationForm.tsx:85-86 | after `{...prev, [name]: value}` the named key holds the new value; every other key and the period are unchanged |
| `Fields.WithFieldLastWins` | src/sections/ReservationForm.tsx:86 | two writes to the same key leave only the later value |
| `Fields.WithFieldCommutes` | src/sections/ReservationForm.tsx:86 | writes to two different keys give the same draft in either order |
| `Fields.WithFieldSameValue` | src/sections/ReservationForm.tsx:86 | writing back the stored value leaves the draft equal to what it was |
| `Fields.WithTime` | src/sections/ReservationForm.tsx:89-91 | `time` and `period` take the given values; every other key is unchanged |
| `Fields.WithTimeSamePeriod` | src/sections/ReservationForm.tsx:89-91 | a time change that passes the current period is the same as replacing `time` alone |
| `Fields.Initial` | src/sections/ReservationForm.tsx:49-59 | the initial draft has all eight strings empty and the period AM |
| `Validation.RequiredAreAllButSpecialRequests` | src/sections/ReservationForm.tsx:70-76 | exactly the seven keys other than the special requests are examined |
| `Validation.ErrorsOverStep` | src/sections/ReservationForm.tsx:70-76 | one conditional assignment, applied to the messages of the empty keys examined so far, gives the messages of the empty keys with one more key examined |
| `Validation.ValidatorStatements` | src/sections/ReservationForm.tsx:69-77 | the seven conditional assignments, run in the source's order on an empty map, give exactly the empty required keys, each with its message |
| `Validation.BuildErrors` | src/sections/ReservationForm.tsx:69-77 | the map built by the seven conditional assignments equals the reference error map of the draft |
| `Validation.ErrorKeysAreMissing` | src/sections/ReservationForm.tsx:69-77 | a key is in the error map if and only if it is required and its string is empty |
| `Validation.ErrorsWellFormed` | src/sections/ReservationForm.tsx:70-76 | each entry of the error map is its key's fixed message, and only required keys appear |
| `Validation.ValidIffAllPresent` | src/sections/ReservationForm.tsx:69-79 | the validator returns true (no keys written) if and only if all seven required strings are non-empty |
| `Validation.ErrorCount` | src/sections/ReservationForm.tsx:69-79 | the error map has exactly as many entries as there are empty required keys |
| `Validation.ErrorsIgnoreOptional` | src/sections/ReservationForm.tsx:70-76 | changing the special requests or the period changes neither the error map nor the verdict |
| `Validation.EmptyDraftHasSevenErrors` | src/sections/ReservationForm.tsx:49-79 | the initial draft fails validation with seven messages |
| `Validation.MountedDraftErrors` | src/sections/ReservationForm.tsx:63-79 | the mounted draft gets six messages when today is non-empty, and seven otherwise |
| `Validation.CompleteDraftHasNoErrors` | src/sections/ReservationForm.tsx:70-79 | a complete draft with empty special requests gets an empty error map |
| `Validation.PresenceIsTheOnlyCheck` | src/sections/ReservationForm.tsx:70-76 | a blank-looking name, a malformed email and time, guest count "0" and an unlisted location all pass |
| `TimeInput.OnTimeEdit` | src/sections/ReservationForm.tsx:30-32 | a time edit reports the typed time and the current period |
| `TimeInput.OnToggle` | src/sections/ReservationForm.tsx:34-36 | the toggle reports the shown time and a period different from the current one |
| `TimeInput.ToggleFlipsOnlyPeriod` | src/sections/ReservationForm.tsx:34-36 | applying a toggle to the draft flips its period and changes nothing else |
| `TimeInput.ToggleTwiceRestores` | src/sections/ReservationForm.tsx:34-36 | two toggles in a row restore the draft |
| `TimeInput.TimeEditKeepsPeriod` | src/sections/ReservationForm.tsx:30-32 | applying a time edit to the draft changes only `time` and keeps the period |
| `Reservation.ReservationForm.constructor` | src/sections/ReservationForm.tsx:49-61 | the form starts with the initial draft and an empty error map |
| `Reservation.ReservationForm.MountEffect` | src/sections/ReservationForm.tsx:63-66 | the date becomes today; the rest of the draft and the errors are unchanged |
| `Reservation.ReservationForm.HandleChange` | src/sections/ReservationForm.tsx:82-87 | the named key takes the value; the rest of the draft and the errors are unchanged |
| `Reservation.ReservationForm.HandleTimeChange` | src/sections/ReservationForm.tsx:89-91 | time and period take the values; the rest of the draft and the errors are unchanged |
| `Reservation.ReservationForm.EditTime` | src/sections/ReservationForm.tsx:30-32 | a time edit through the selector changes only `time`; the period and the errors are kept |
| `Reservation.ReservationForm.TogglePeriod` | src/sections/ReservationForm.tsx:34-36 | the selector's toggle flips the period; time, the other keys and the errors are kept |
| `Reservation.ReservationForm.ValidateForm` | src/sections/ReservationForm.tsx:68-80 | the draft is unchanged, the errors become the reference error map, and the result is true if and only if all required keys are present |
| `Reservation.ReservationForm.HandleSubmit` | src/sections/ReservationForm.tsx:93-99 | a submit attempt only replaces the errors with the reference error map and returns the verdict; the draft is unchanged, and the state has no "submitted" part |
| `Reservation.SubmitUntouched` | src/sections/ReservationForm.tsx:49-99 | mounting on today and submitting untouched fails, with six errors (seven if today is empty) |

## Left out

- Rendering: the JSX markup, the stylesheet and how `errors` is displayed
  (lines 101-214). The only state logic there is reading the fields.
- The `console.log` of the draft on a successful submit (line 96). It is
  diagnostic output, so submit is modelled as returning the validation result.
- `preventDefault` on the submit event (line 94). It is browser navigation, not
  form state.
- The clock and date formatting of the mount effect (line 64). "Today" is a
  string parameter.
- Browser-side constraints: `min`/`max` on guests, the `email`/`tel` input
  types, and the location `<select>` (lines 17-23). The form sets `noValidate`,
  and the validator never checks these, so the model does not check them.
- Computed-key writes with a name outside the draft's keys (line 86). The model
  restricts `HandleChange` to the eight string-valued keys of `Field`.
- Writing `period` through `handleChange`. No control of the form sends that
  name, and the field is typed `"AM" | "PM"`, so `period` changes only through
  `HandleTimeChange`.
- React's scheduling: batched `setState`, re-renders, StrictMode double effects
  and stale closures. Every handler is modelled as running to completion on the
  latest state, one after another. Running the mount effect twice gives the
  same draft (`Fields.WithFieldLastWins`).
- `src/config/data.interface.ts`. It declares content shapes only (metadata,
  dishes, footer links) and has no behaviour.
