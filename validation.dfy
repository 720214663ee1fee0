/**
 Presence validation of the reservation draft: which keys are required, the
 fixed message for each, the error map the validator produces, and the lemmas
 that relate it to the draft.
 */
module Validation {
  import opened Fields

  /** The seven keys the validator examines. */
  const Required: set<Field> := {Name, Email, Phone, Date, Time, Guests, Location}

  /** The same keys, in the order the validator examines them. */
  const ExamineOrder: seq<Field> := [Name, Email, Phone, Date, Time, Guests, Location]

  /** The special requests are optional; every other key is required. */
  predicate IsRequired(f: Field)
  {
    f != SpecialRequests
  }

  lemma RequiredAreAllButSpecialRequests(f: Field)
    ensures f in Required <==> IsRequired(f)
  {
  }

  /** The fixed messages, one per required key. */
  const NameRequired: string := "Name is required"
  const EmailRequired: string := "Email is required"
  const PhoneRequired: string := "Phone number is required"
  const DateRequired: string := "Date is required"
  const TimeRequired: string := "Time is required"
  const GuestsRequired: string := "Number of guests is required"
  const LocationRequired: string := "Location is required"

  /** The fixed message shown under a missing required key. */
  function Message(f: Field): string
    requires IsRequired(f)
  {
    match f
    case Name => NameRequired
    case Email => EmailRequired
    case Phone => PhoneRequired
    case Date => DateRequired
    case Time => TimeRequired
    case Guests => GuestsRequired
    case Location => LocationRequired
  }

  /** A required key is missing when its string is empty; nothing else is checked. */
  predicate Missing(d: FormData, f: Field)
  {
    IsRequired(f) && Get(d, f) == ""
  }

  /** The error map the validator is meant to produce: one entry per missing key. */
  function Errors(d: FormData): map<Field, string>
  {
    map f | f in Required && Get(d, f) == "" :: Message(f)
  }

  /** An error map holds only required keys, each with its fixed message. */
  predicate WellFormedErrors(m: map<Field, string>)
  {
    forall f :: f in m ==> IsRequired(f) && m[f] == Message(f)
  }

  /** The draft is acceptable when all seven required strings are non-empty. */
  predicate AllRequiredPresent(d: FormData)
  {
    d.name != "" && d.email != "" && d.phone != "" && d.date != ""
    && d.time != "" && d.guests != "" && d.location != ""
  }

  /** One statement of the validator: `f`'s message is written when `f` is empty. */
  function CheckField(m: map<Field, string>, d: FormData, f: Field): map<Field, string>
    requires IsRequired(f)
  {
    if Get(d, f) == "" then m[f := Message(f)] else m
  }

  /** The messages of the empty keys among the required keys `s`. */
  function ErrorsOver(d: FormData, s: set<Field>): map<Field, string>
    requires forall f :: f in s ==> IsRequired(f)
  {
    map f | f in s && Get(d, f) == "" :: Message(f)
  }

  /** Examining one more key, after the keys `s`, yields the messages of the empty keys of `s + {f}`. */
  lemma ErrorsOverStep(d: FormData, s: set<Field>, f: Field)
    requires forall g :: g in s ==> IsRequired(g)
    requires IsRequired(f) && f !in s
    ensures CheckField(ErrorsOver(d, s), d, f) == ErrorsOver(d, s + {f})
  {
    var before := ErrorsOver(d, s);
    var after := ErrorsOver(d, s + {f});
    if Get(d, f) == "" {
      assert after.Keys == before.Keys + {f};
    } else {
      assert after.Keys == before.Keys;
    }
  }

  /** The seven statements of the validator, run in order on an empty map, give the reference error map. */
  lemma ValidatorStatements(d: FormData)
    ensures CheckField(CheckField(CheckField(CheckField(CheckField(CheckField(CheckField(
              map[], d, Name), d, Email), d, Phone), d, Date), d, Time), d, Guests), d, Location)
            == Errors(d)
  {
    assert ErrorsOver(d, {}) == map[];
    ErrorsOverStep(d, {}, Name);
    assert {} + {Name} == {Name};
    ErrorsOverStep(d, {Name}, Email);
    assert {Name} + {Email} == {Name, Email};
    ErrorsOverStep(d, {Name, Email}, Phone);
    assert {Name, Email} + {Phone} == {Name, Email, Phone};
    ErrorsOverStep(d, {Name, Email, Phone}, Date);
    assert {Name, Email, Phone} + {Date} == {Name, Email, Phone, Date};
    ErrorsOverStep(d, {Name, Email, Phone, Date}, Time);
    assert {Name, Email, Phone, Date} + {Time} == {Name, Email, Phone, Date, Time};
    ErrorsOverStep(d, {Name, Email, Phone, Date, Time}, Guests);
    assert {Name, Email, Phone, Date, Time} + {Guests} == {Name, Email, Phone, Date, Time, Guests};
    ErrorsOverStep(d, {Name, Email, Phone, Date, Time, Guests}, Location);
    assert {Name, Email, Phone, Date, Time, Guests} + {Location} == {Name, Email, Phone, Date, Time, Guests, Location};
    assert {Name, Email, Phone, Date, Time, Guests, Location} == Required;
  }

  /**
   The validator's body: starting from an empty map it adds, for each of the
   seven required keys in turn, that key's message when the key is empty.
   */
  method BuildErrors(d: FormData) returns (newErrors: map<Field, string>)
    ensures newErrors == Errors(d)
  {
    newErrors := map[];
    ghost var before := newErrors;
    if d.name == "" { newErrors := newErrors[Name := NameRequired]; }
    assert newErrors == CheckField(before, d, Name);
    before := newErrors;
    if d.email == "" { newErrors := newErrors[Email := EmailRequired]; }
    assert newErrors == CheckField(before, d, Email);
    before := newErrors;
    if d.phone == "" { newErrors := newErrors[Phone := PhoneRequired]; }
    assert newErrors == CheckField(before, d, Phone);
    before := newErrors;
    if d.date == "" { newErrors := newErrors[Date := DateRequired]; }
    assert newErrors == CheckField(before, d, Date);
    before := newErrors;
    if d.time == "" { newErrors := newErrors[Time := TimeRequired]; }
    assert newErrors == CheckField(before, d, Time);
    before := newErrors;
    if d.guests == "" { newErrors := newErrors[Guests := GuestsRequired]; }
    assert newErrors == CheckField(before, d, Guests);
    before := newErrors;
    if d.location == "" { newErrors := newErrors[Location := LocationRequired]; }
    assert newErrors == CheckField(before, d, Location);
    ValidatorStatements(d);
  }

  /** The error map has a key for exactly the missing required keys. */
  lemma ErrorKeysAreMissing(d: FormData, f: Field)
    ensures f in Errors(d) <==> Missing(d, f)
  {
  }

  /** Every entry of the error map is the fixed message of its key. */
  lemma ErrorsWellFormed(d: FormData)
    ensures WellFormedErrors(Errors(d))
  {
  }

  /** The validator's verdict: no entry was written exactly when every required key is present. */
  lemma ValidIffAllPresent(d: FormData)
    ensures |Errors(d)| == 0 <==> AllRequiredPresent(d)
  {
    if AllRequiredPresent(d) {
      assert Errors(d) == map[];
    } else {
      var f :| f in Required && Get(d, f) == "";
      assert f in Errors(d);
    }
  }

  /** The number of empty keys in `fs`. */
  function CountEmpty(d: FormData, fs: seq<Field>): nat
  {
    if fs == [] then 0
    else (if Get(d, fs[0]) == "" then 1 else 0) + CountEmpty(d, fs[1..])
  }

  /** Over a list without repetitions, the empty keys form a set of that many elements. */
  lemma {:induction false} EmptyKeysCount(d: FormData, fs: seq<Field>)
    requires forall i, j :: 0 <= i < j < |fs| ==> fs[i] != fs[j]
    ensures |set f | f in fs && Get(d, f) == ""| == CountEmpty(d, fs)
  {
    if fs != [] {
      EmptyKeysCount(d, fs[1..]);
      var rest := set f | f in fs[1..] && Get(d, f) == "";
      assert fs[0] !in fs[1..];
      if Get(d, fs[0]) == "" {
        assert (set f | f in fs && Get(d, f) == "") == rest + {fs[0]};
      } else {
        assert (set f | f in fs && Get(d, f) == "") == rest;
      }
    }
  }

  /** The error map has one entry per empty required key. */
  lemma ErrorCount(d: FormData)
    ensures |Errors(d)| == CountEmpty(d, ExamineOrder)
  {
    var fs := ExamineOrder;
    EmptyKeysCount(d, fs);
    assert Errors(d).Keys == set f | f in fs && Get(d, f) == "";
  }

  /** The validator never looks at the special requests or the period. */
  lemma ErrorsIgnoreOptional(d: FormData, s: string, p: Period)
    ensures Errors(d.(specialRequests := s, period := p)) == Errors(d)
    ensures AllRequiredPresent(d.(specialRequests := s, period := p)) == AllRequiredPresent(d)
  {
    var e := d.(specialRequests := s, period := p);
    assert forall f :: IsRequired(f) ==> Get(e, f) == Get(d, f);
  }

  /** A fully empty draft gets all seven messages. */
  lemma EmptyDraftHasSevenErrors()
    ensures |Errors(Initial())| == 7
    ensures !AllRequiredPresent(Initial())
  {
    ErrorCount(Initial());
  }

  /** A freshly mounted draft, whose only filled key is the date, gets six messages. */
  lemma MountedDraftErrors(today: string)
    ensures |Errors(WithField(Initial(), Date, today))| == if today == "" then 7 else 6
  {
    var d := WithField(Initial(), Date, today);
    ErrorCount(d);
    assert forall f :: f != Date ==> Get(d, f) == "";
    assert CountEmpty(d, [Location]) == 1;
    assert CountEmpty(d, [Guests, Location]) == 2 by { assert [Guests, Location][1..] == [Location]; }
    assert CountEmpty(d, [Time, Guests, Location]) == 3 by { assert [Time, Guests, Location][1..] == [Guests, Location]; }
    assert CountEmpty(d, [Date, Time, Guests, Location]) == if today == "" then 4 else 3 by {
      assert [Date, Time, Guests, Location][1..] == [Time, Guests, Location];
    }
    assert CountEmpty(d, [Phone, Date, Time, Guests, Location]) == if today == "" then 5 else 4 by {
      assert [Phone, Date, Time, Guests, Location][1..] == [Date, Time, Guests, Location];
    }
    assert CountEmpty(d, [Email, Phone, Date, Time, Guests, Location]) == if today == "" then 6 else 5 by {
      assert [Email, Phone, Date, Time, Guests, Location][1..] == [Phone, Date, Time, Guests, Location];
    }
    assert ExamineOrder[1..] == [Email, Phone, Date, Time, Guests, Location];
  }

  /** A complete draft with no special requests gets no message. */
  lemma CompleteDraftHasNoErrors()
    ensures Errors(FormData("Jane Doe", "jane@x.com", "5551234567", "2024-06-01", "18:30",
                            PM, "4", "Downtown", "")) == map[]
  {
    var d := FormData("Jane Doe", "jane@x.com", "5551234567", "2024-06-01", "18:30",
                      PM, "4", "Downtown", "");
    ValidIffAllPresent(d);
  }

  /**
   Only presence is checked: a name of spaces, a guest count that is not a
   number and a location outside the offered list all pass.
   */
  lemma PresenceIsTheOnlyCheck()
    ensures Errors(FormData(" ", "not an address", "x", "tomorrow", "25:99",
                            AM, "0", "Atlantis", "")) == map[]
  {
    var d := FormData(" ", "not an address", "x", "tomorrow", "25:99",
                      AM, "0", "Atlantis", "");
    ValidIffAllPresent(d);
  }
}
