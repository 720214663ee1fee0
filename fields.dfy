/**
 The reservation draft: the flat record the reservation form keeps as local
 state, and the immutable field updates its handlers perform.
 */
module Fields {

  /** The two values of the AM/PM toggle. */
  datatype Period = AM | PM

  /** The toggle's rule: AM becomes PM and PM becomes AM. */
  function Toggled(p: Period): (q: Period)
    ensures q != p
  {
    if p == AM then PM else AM
  }

  /** Toggling twice gives back the period one started from. */
  lemma ToggledTwice(p: Period)
    ensures Toggled(Toggled(p)) == p
  {
  }

  /** The eight string-valued keys of the draft (every key except `period`). */
  datatype Field = Name | Email | Phone | Date | Time | Guests | Location | SpecialRequests

  /** The nine fields of the draft. */
  datatype FormData = FormData(
    name: string,
    email: string,
    phone: string,
    date: string,
    time: string,
    period: Period,
    guests: string,
    location: string,
    specialRequests: string)

  /** The value stored under a string-valued key. */
  function Get(d: FormData, f: Field): string
  {
    match f
    case Name => d.name
    case Email => d.email
    case Phone => d.phone
    case Date => d.date
    case Time => d.time
    case Guests => d.guests
    case Location => d.location
    case SpecialRequests => d.specialRequests
  }

  /** Two drafts that agree on every key and on the period are the same draft. */
  lemma Extensional(d: FormData, e: FormData)
    requires forall f :: Get(d, f) == Get(e, f)
    requires d.period == e.period
    ensures d == e
  {
    assert Get(d, Name) == Get(e, Name) && Get(d, Email) == Get(e, Email);
    assert Get(d, Phone) == Get(e, Phone) && Get(d, Date) == Get(e, Date);
    assert Get(d, Time) == Get(e, Time) && Get(d, Guests) == Get(e, Guests);
    assert Get(d, Location) == Get(e, Location);
    assert Get(d, SpecialRequests) == Get(e, SpecialRequests);
  }

  /** The draft in which key `f` holds `v`: the spread `{...prev, [name]: value}`. */
  function WithField(d: FormData, f: Field, v: string): (r: FormData)
    ensures Get(r, f) == v
    ensures forall g :: g != f ==> Get(r, g) == Get(d, g)
    ensures r.period == d.period
  {
    match f
    case Name => d.(name := v)
    case Email => d.(email := v)
    case Phone => d.(phone := v)
    case Date => d.(date := v)
    case Time => d.(time := v)
    case Guests => d.(guests := v)
    case Location => d.(location := v)
    case SpecialRequests => d.(specialRequests := v)
  }

  /** Of two writes to the same key, the later one wins. */
  lemma WithFieldLastWins(d: FormData, f: Field, v: string, w: string)
    ensures WithField(WithField(d, f, v), f, w) == WithField(d, f, w)
  {
    Extensional(WithField(WithField(d, f, v), f, w), WithField(d, f, w));
  }

  /** Writes to two different keys can be made in either order. */
  lemma WithFieldCommutes(d: FormData, f: Field, v: string, g: Field, w: string)
    requires f != g
    ensures WithField(WithField(d, f, v), g, w) == WithField(WithField(d, g, w), f, v)
  {
    Extensional(WithField(WithField(d, f, v), g, w), WithField(WithField(d, g, w), f, v));
  }

  /** Writing back the value already stored leaves the draft as it is. */
  lemma WithFieldSameValue(d: FormData, f: Field)
    ensures WithField(d, f, Get(d, f)) == d
  {
    Extensional(WithField(d, f, Get(d, f)), d);
  }

  /** The draft with `time` and `period` replaced together: `{...prev, time, period}`. */
  function WithTime(d: FormData, t: string, p: Period): (r: FormData)
    ensures r.time == t && r.period == p
    ensures forall g :: g != Time ==> Get(r, g) == Get(d, g)
  {
    d.(time := t, period := p)
  }

  /** Replacing the time while passing the current period changes only `time`. */
  lemma WithTimeSamePeriod(d: FormData, t: string)
    ensures WithTime(d, t, d.period) == WithField(d, Time, t)
  {
    Extensional(WithTime(d, t, d.period), WithField(d, Time, t));
  }

  /** The draft the form starts from: every string empty and the period AM. */
  function Initial(): (d: FormData)
    ensures forall f :: Get(d, f) == ""
    ensures d.period == AM
  {
    FormData("", "", "", "", "", AM, "", "", "")
  }
}
