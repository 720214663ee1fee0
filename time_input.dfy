/**
 The time-of-day selector: a stateless component that shows the owner's time
 string and period and reports every change through one callback with the
 new time and period. Its two event handlers are modelled as the arguments
 they pass to that callback.
 */
module TimeInput {
  import opened Fields

  /** The arguments of one `onChange(time, period)` call. */
  datatype TimeChange = TimeChange(time: string, period: Period)

  /** Editing the time field reports the typed value with the period unchanged. */
  function OnTimeEdit(period: Period, typed: string): (c: TimeChange)
    ensures c.time == typed && c.period == period
  {
    TimeChange(typed, period)
  }

  /** Pressing the toggle reports the shown time unchanged and the other period. */
  function OnToggle(value: string, period: Period): (c: TimeChange)
    ensures c.time == value && c.period != period
  {
    TimeChange(value, Toggled(period))
  }

  /** What the owner does with a reported change: replace `time` and `period` together. */
  function Apply(d: FormData, c: TimeChange): FormData
  {
    WithTime(d, c.time, c.period)
  }

  /** Pressing the toggle on a rendered draft flips its period and nothing else. */
  lemma ToggleFlipsOnlyPeriod(d: FormData)
    ensures Apply(d, OnToggle(d.time, d.period)) == d.(period := Toggled(d.period))
  {
  }

  /** Pressing the toggle twice gives back the draft one started from. */
  lemma ToggleTwiceRestores(d: FormData)
    ensures var once := Apply(d, OnToggle(d.time, d.period));
            Apply(once, OnToggle(once.time, once.period)) == d
  {
    ToggledTwice(d.period);
  }

  /** Editing the time on a rendered draft changes its `time` and keeps its period. */
  lemma TimeEditKeepsPeriod(d: FormData, typed: string)
    ensures Apply(d, OnTimeEdit(d.period, typed)) == WithField(d, Time, typed)
  {
    WithTimeSamePeriod(d, typed);
  }
}
