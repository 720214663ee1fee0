/**
 The reservation form container: it owns the draft and the error map as local
 state, overwrites them from its event handlers, and validates on submit.
 */
module Reservation {
  import opened Fields
  import opened Validation
  import TimeInput

  class ReservationForm {
    var formData: FormData
    var errors: map<Field, string>

    /** The error map only ever holds required keys with their fixed messages. */
    ghost predicate Valid()
      reads this
    {
      WellFormedErrors(errors)
    }

    /** The state created when the form is first rendered. */
    constructor ()
      ensures formData == Initial() && errors == map[]
      ensures Valid()
    {
      formData := Initial();
      errors := map[];
    }

    /** The one-time mount effect: the date defaults to `today`. */
    method MountEffect(today: string)
      requires Valid()
      modifies this
      ensures Valid()
      ensures formData == WithField(old(formData), Date, today)
      ensures errors == old(errors)
    {
      formData := WithField(formData, Date, today);
    }

    /** A text input, the select or the text area reports a new value for its key. */
    method HandleChange(f: Field, value: string)
      requires Valid()
      modifies this
      ensures Valid()
      ensures formData == WithField(old(formData), f, value)
      ensures errors == old(errors)
    {
      formData := WithField(formData, f, value);
    }

    /** The time selector reports a new time and period. */
    method HandleTimeChange(time: string, period: Period)
      requires Valid()
      modifies this
      ensures Valid()
      ensures formData == WithTime(old(formData), time, period)
      ensures errors == old(errors)
    {
      formData := WithTime(formData, time, period);
    }

    /** The time field of the selector is edited. */
    method EditTime(typed: string)
      requires Valid()
      modifies this
      ensures Valid()
      ensures formData == WithField(old(formData), Time, typed)
      ensures errors == old(errors)
    {
      var c := TimeInput.OnTimeEdit(formData.period, typed);
      TimeInput.TimeEditKeepsPeriod(formData, typed);
      HandleTimeChange(c.time, c.period);
    }

    /** The AM/PM button of the selector is pressed. */
    method TogglePeriod()
      requires Valid()
      modifies this
      ensures Valid()
      ensures formData == old(formData).(period := Toggled(old(formData).period))
      ensures errors == old(errors)
    {
      var c := TimeInput.OnToggle(formData.time, formData.period);
      HandleTimeChange(c.time, c.period);
    }

    /** Validation: the error map is replaced by the messages of the missing keys. */
    method ValidateForm() returns (ok: bool)
      modifies this
      ensures Valid()
      ensures formData == old(formData)
      ensures errors == Errors(formData)
      ensures ok <==> AllRequiredPresent(formData)
    {
      var newErrors := BuildErrors(formData);
      errors := newErrors;
      ErrorsWellFormed(formData);
      ValidIffAllPresent(formData);
      ok := |newErrors| == 0;
    }

    /**
     A submit attempt runs the validator and nothing else; the draft is kept
     and the form stays editable whatever the outcome.
     */
    method HandleSubmit() returns (ok: bool)
      modifies this
      ensures Valid()
      ensures formData == old(formData)
      ensures errors == Errors(formData)
      ensures ok <==> AllRequiredPresent(formData)
    {
      ok := ValidateForm();
    }
  }

  /**
   Mounting the form on `today` and submitting it untouched fails, with a
   message for every required key except the date when `today` is not empty.
   */
  method SubmitUntouched(today: string) returns (ok: bool, errorCount: nat)
    ensures !ok
    ensures errorCount == if today == "" then 7 else 6
  {
    var form := new ReservationForm();
    form.MountEffect(today);
    ok := form.HandleSubmit();
    errorCount := |form.errors|;
    MountedDraftErrors(today);
  }
}
