/**
 * The charge profile as the handler sees it through ChargeProfileWrapper: the
 * values its getters return and the setters the handler calls. The wrapper's
 * JSON form and its own validation are not part of this model; each setter
 * stores the value it is given.
 */
module ChargeProfiles {
  import opened Options

  datatype DayOfWeek = Monday | Tuesday | Wednesday | Thursday | Friday | Saturday | Sunday

  /** `ChargeProfileWrapper.ProfileKey`. */
  datatype ProfileKey = Climate | Timer1 | Timer2 | Timer3 | Override | WindowStart | WindowEnd

  datatype ChargeProfile = ChargeProfile(
    preference: string,
    mode: string,
    enabled: map<ProfileKey, bool>,
    hour: map<ProfileKey, int>,
    minute: map<ProfileKey, int>,
    days: map<(ProfileKey, DayOfWeek), bool>)

  /** One call of a wrapper setter. */
  datatype Edit =
    | SetPreference(preference: string)
    | SetMode(mode: string)
    | SetEnabled(key: ProfileKey, on: bool)
    | SetDayEnabled(key: ProfileKey, day: DayOfWeek, on: bool)
    | SetHour(key: ProfileKey, hour: int)
    | SetMinute(key: ProfileKey, minute: int)

  /** An individually readable item of a profile. */
  datatype Field =
    | PreferenceField
    | ModeField
    | EnabledField(key: ProfileKey)
    | DayField(key: ProfileKey, day: DayOfWeek)
    | HourField(key: ProfileKey)
    | MinuteField(key: ProfileKey)

  datatype Value = Text(text: string) | Flag(flag: bool) | Number(number: int)

  /** What the getters answer for a field (absent when the profile has no entry for it). */
  function Read(p: ChargeProfile, f: Field): Option<Value>
  {
    match f
    case PreferenceField => Some(Text(p.preference))
    case ModeField => Some(Text(p.mode))
    case EnabledField(k) => if k in p.enabled then Some(Flag(p.enabled[k])) else None
    case DayField(k, d) => if (k, d) in p.days then Some(Flag(p.days[(k, d)])) else None
    case HourField(k) => if k in p.hour then Some(Number(p.hour[k])) else None
    case MinuteField(k) => if k in p.minute then Some(Number(p.minute[k])) else None
  }

  /** The field a setter writes. */
  function Target(e: Edit): Field
  {
    match e
    case SetPreference(_) => PreferenceField
    case SetMode(_) => ModeField
    case SetEnabled(k, _) => EnabledField(k)
    case SetDayEnabled(k, d, _) => DayField(k, d)
    case SetHour(k, _) => HourField(k)
    case SetMinute(k, _) => MinuteField(k)
  }

  /** The value a setter writes. */
  function Written(e: Edit): Value
  {
    match e
    case SetPreference(s) => Text(s)
    case SetMode(s) => Text(s)
    case SetEnabled(_, b) => Flag(b)
    case SetDayEnabled(_, _, b) => Flag(b)
    case SetHour(_, h) => Number(h)
    case SetMinute(_, m) => Number(m)
  }

  /** The profile key a setter touches; preference and mode belong to no key. */
  function KeyOf(f: Field): Option<ProfileKey>
  {
    match f
    case PreferenceField => None
    case ModeField => None
    case EnabledField(k) => Some(k)
    case DayField(k, _) => Some(k)
    case HourField(k) => Some(k)
    case MinuteField(k) => Some(k)
  }

  /**
   * Calling one setter on the overlay: the written field reads back the written
   * value, and every other field reads as before.
   */
  function Apply(p: ChargeProfile, e: Edit): (r: ChargeProfile)
    ensures Read(r, Target(e)) == Some(Written(e))
    ensures forall f :: f != Target(e) ==> Read(r, f) == Read(p, f)
  {
    match e
    case SetPreference(s) => p.(preference := s)
    case SetMode(s) => p.(mode := s)
    case SetEnabled(k, b) => p.(enabled := p.enabled[k := b])
    case SetDayEnabled(k, d, b) => p.(days := p.days[(k, d) := b])
    case SetHour(k, h) => p.(hour := p.hour[k := h])
    case SetMinute(k, m) => p.(minute := p.minute[k := m])
  }

  /** A sequence of setter calls, in order. */
  function ApplyAll(p: ChargeProfile, edits: seq<Edit>): ChargeProfile
    decreases |edits|
  {
    if edits == [] then p else ApplyAll(Apply(p, edits[0]), edits[1..])
  }

  /** The value of the last edit in `edits` that writes `f`, or `base` if none does. */
  function LastWrite(edits: seq<Edit>, f: Field, base: Option<Value>): Option<Value>
    decreases |edits|
  {
    if edits == [] then base
    else if Target(edits[|edits| - 1]) == f then Some(Written(edits[|edits| - 1]))
    else LastWrite(edits[..|edits| - 1], f, base)
  }

  /** ApplyAll peeled from the end: the last setter call is applied last. */
  lemma {:induction false} ApplyAllSnoc(p: ChargeProfile, edits: seq<Edit>, e: Edit)
    ensures ApplyAll(p, edits + [e]) == Apply(ApplyAll(p, edits), e)
    decreases |edits|
  {
    if edits == [] {
      assert edits + [e] == [e];
    } else {
      assert (edits + [e])[1..] == edits[1..] + [e];
      ApplyAllSnoc(Apply(p, edits[0]), edits[1..], e);
    }
  }

  /**
   * The overlay after any sequence of edits is the deterministic fold of them:
   * every field reads the last value written to it, or its original value if no
   * edit wrote it. No edit is lost and none is applied twice.
   */
  lemma {:induction false} ApplyAllReads(p: ChargeProfile, edits: seq<Edit>, f: Field)
    ensures Read(ApplyAll(p, edits), f) == LastWrite(edits, f, Read(p, f))
    decreases |edits|
  {
    if edits != [] {
      var init, e := edits[..|edits| - 1], edits[|edits| - 1];
      assert edits == init + [e];
      ApplyAllSnoc(p, init, e);
      ApplyAllReads(p, init, f);
    }
  }

  /** Edits addressed to one profile key leave every other key's fields as they were. */
  lemma {:induction false} ApplyAllOtherKey(p: ChargeProfile, edits: seq<Edit>, f: Field, k: ProfileKey)
    requires forall i :: 0 <= i < |edits| ==> KeyOf(Target(edits[i])) == Some(k)
    requires KeyOf(f) != Some(k)
    ensures Read(ApplyAll(p, edits), f) == Read(p, f)
    decreases |edits|
  {
    if edits != [] {
      assert KeyOf(Target(edits[0])) == Some(k);
      ApplyAllOtherKey(Apply(p, edits[0]), edits[1..], f, k);
    }
  }
}
