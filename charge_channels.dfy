/**
 * The channel identifiers the handler dispatches on (one constructor per channel
 * constant of the binding; `Other` is any other identifier), the commands it
 * receives, and the three static tables that join charge channels to profile keys.
 * The constants' string values are not modelled: distinct constructors take
 * them as pairwise distinct.
 */
module ChargeChannels {
  import opened Options
  import opened ChargeProfiles

  datatype ChannelId =
    // charge group, string commands
    | ProfilePreference | ProfileMode
    // charge group, enable switches
    | ProfileClimate | Timer1Enabled | Timer2Enabled | Timer3Enabled | OverrideEnabled
    // charge group, times
    | WindowStartHour | WindowStartMinute | WindowEndHour | WindowEndMinute
    | Timer1DepartureHour | Timer1DepartureMinute | Timer2DepartureHour | Timer2DepartureMinute
    | Timer3DepartureHour | Timer3DepartureMinute | OverrideDepartureHour | OverrideDepartureMinute
    // charge group, timer days
    | Timer1DayMon | Timer1DayTue | Timer1DayWed | Timer1DayThu | Timer1DayFri | Timer1DaySat | Timer1DaySun
    | Timer2DayMon | Timer2DayTue | Timer2DayWed | Timer2DayThu | Timer2DayFri | Timer2DaySat | Timer2DaySun
    | Timer3DayMon | Timer3DayTue | Timer3DayWed | Timer3DayThu | Timer3DayFri | Timer3DaySat | Timer3DaySun
    // image group
    | ImageViewport | ImageSize
    | Other(name: string)

  /**
   * The openHAB command types the handler distinguishes. A DecimalType command is
   * kept as the value of its `intValue()`.
   */
  datatype Command =
    | RefreshCmd
    | StringCmd(text: string)
    | OnOffCmd(on: bool)
    | DecimalCmd(value: int)
    | OtherCmd

  datatype ChargeKeyHour = ChargeKeyHour(key: ProfileKey, isHour: bool)
  datatype ChargeKeyDay = ChargeKeyDay(key: ProfileKey, day: DayOfWeek)

  const ChargeEnableChannelKeys: map<ChannelId, ProfileKey> := map[
    ProfileClimate := Climate,
    Timer1Enabled := Timer1,
    Timer2Enabled := Timer2,
    Timer3Enabled := Timer3,
    OverrideEnabled := Override]

  const ChargeTimeChannelKeys: map<ChannelId, ChargeKeyHour> := map[
    WindowStartHour := ChargeKeyHour(WindowStart, true),
    WindowStartMinute := ChargeKeyHour(WindowStart, false),
    WindowEndHour := ChargeKeyHour(WindowEnd, true),
    WindowEndMinute := ChargeKeyHour(WindowEnd, false),
    Timer1DepartureHour := ChargeKeyHour(Timer1, true),
    Timer1DepartureMinute := ChargeKeyHour(Timer1, false),
    Timer2DepartureHour := ChargeKeyHour(Timer2, true),
    Timer2DepartureMinute := ChargeKeyHour(Timer2, false),
    Timer3DepartureHour := ChargeKeyHour(Timer3, true),
    Timer3DepartureMinute := ChargeKeyHour(Timer3, false),
    OverrideDepartureHour := ChargeKeyHour(Override, true),
    OverrideDepartureMinute := ChargeKeyHour(Override, false)]

  const ChargeDayChannelKeys: map<ChannelId, ChargeKeyDay> := map[
    Timer1DayMon := ChargeKeyDay(Timer1, Monday),
    Timer1DayTue := ChargeKeyDay(Timer1, Tuesday),
    Timer1DayWed := ChargeKeyDay(Timer1, Wednesday),
    Timer1DayThu := ChargeKeyDay(Timer1, Thursday),
    Timer1DayFri := ChargeKeyDay(Timer1, Friday),
    Timer1DaySat := ChargeKeyDay(Timer1, Saturday),
    Timer1DaySun := ChargeKeyDay(Timer1, Sunday),
    Timer2DayMon := ChargeKeyDay(Timer2, Monday),
    Timer2DayTue := ChargeKeyDay(Timer2, Tuesday),
    Timer2DayWed := ChargeKeyDay(Timer2, Wednesday),
    Timer2DayThu := ChargeKeyDay(Timer2, Thursday),
    Timer2DayFri := ChargeKeyDay(Timer2, Friday),
    Timer2DaySat := ChargeKeyDay(Timer2, Saturday),
    Timer2DaySun := ChargeKeyDay(Timer2, Sunday),
    Timer3DayMon := ChargeKeyDay(Timer3, Monday),
    Timer3DayTue := ChargeKeyDay(Timer3, Tuesday),
    Timer3DayWed := ChargeKeyDay(Timer3, Wednesday),
    Timer3DayThu := ChargeKeyDay(Timer3, Thursday),
    Timer3DayFri := ChargeKeyDay(Timer3, Friday),
    Timer3DaySat := ChargeKeyDay(Timer3, Saturday),
    Timer3DaySun := ChargeKeyDay(Timer3, Sunday)]

  /**
   * The setter call that `handleChargeProfileCommand` makes for a command on a
   * charge channel, or None when the command is not processed: string commands
   * for preference and mode; on/off commands looked up in the enable table
   * first and in the day table only if that fails; decimal commands looked up
   * in the time table, calling setHour or setMinute as its entry says.
   */
  function Dispatch(id: ChannelId, cmd: Command): (r: Option<Edit>)
    ensures r.Some? ==> CommandValue(cmd) == Some(Written(r.value))
  {
    match cmd
    case StringCmd(s) =>
      if id == ProfilePreference then Some(SetPreference(s))
      else if id == ProfileMode then Some(SetMode(s))
      else None
    case OnOffCmd(on) =>
      if id in ChargeEnableChannelKeys then Some(SetEnabled(ChargeEnableChannelKeys[id], on))
      else if id in ChargeDayChannelKeys then
        Some(SetDayEnabled(ChargeDayChannelKeys[id].key, ChargeDayChannelKeys[id].day, on))
      else None
    case DecimalCmd(v) =>
      if id in ChargeTimeChannelKeys then
        var kh := ChargeTimeChannelKeys[id];
        if kh.isHour then Some(SetHour(kh.key, v)) else Some(SetMinute(kh.key, v))
      else None
    case _ => None
  }

  /** The value a command carries, if it is of a kind a setter can take. */
  function CommandValue(cmd: Command): Option<Value>
  {
    match cmd
    case StringCmd(s) => Some(Text(s))
    case OnOffCmd(on) => Some(Flag(on))
    case DecimalCmd(v) => Some(Number(v))
    case _ => None
  }

  /**
   * An independent reference for the three tables: what each charge channel is
   * bound to, as one tagged variant per channel.
   */
  datatype Binding =
    | PreferenceBinding
    | ModeBinding
    | EnableBinding(key: ProfileKey)
    | TimeBinding(key: ProfileKey, isHour: bool)
    | DayBinding(key: ProfileKey, day: DayOfWeek)

  function BindingOf(id: ChannelId): Option<Binding>
  {
    match id
    case ProfilePreference => Some(PreferenceBinding)
    case ProfileMode => Some(ModeBinding)
    case ProfileClimate => Some(EnableBinding(Climate))
    case Timer1Enabled => Some(EnableBinding(Timer1))
    case Timer2Enabled => Some(EnableBinding(Timer2))
    case Timer3Enabled => Some(EnableBinding(Timer3))
    case OverrideEnabled => Some(EnableBinding(Override))
    case WindowStartHour => Some(TimeBinding(WindowStart, true))
    case WindowStartMinute => Some(TimeBinding(WindowStart, false))
    case WindowEndHour => Some(TimeBinding(WindowEnd, true))
    case WindowEndMinute => Some(TimeBinding(WindowEnd, false))
    case Timer1DepartureHour => Some(TimeBinding(Timer1, true))
    case Timer1DepartureMinute => Some(TimeBinding(Timer1, false))
    case Timer2DepartureHour => Some(TimeBinding(Timer2, true))
    case Timer2DepartureMinute => Some(TimeBinding(Timer2, false))
    case Timer3DepartureHour => Some(TimeBinding(Timer3, true))
    case Timer3DepartureMinute => Some(TimeBinding(Timer3, false))
    case OverrideDepartureHour => Some(TimeBinding(Override, true))
    case OverrideDepartureMinute => Some(TimeBinding(Override, false))
    case Timer1DayMon => Some(DayBinding(Timer1, Monday))
    case Timer1DayTue => Some(DayBinding(Timer1, Tuesday))
    case Timer1DayWed => Some(DayBinding(Timer1, Wednesday))
    case Timer1DayThu => Some(DayBinding(Timer1, Thursday))
    case Timer1DayFri => Some(DayBinding(Timer1, Friday))
    case Timer1DaySat => Some(DayBinding(Timer1, Saturday))
    case Timer1DaySun => Some(DayBinding(Timer1, Sunday))
    case Timer2DayMon => Some(DayBinding(Timer2, Monday))
    case Timer2DayTue => Some(DayBinding(Timer2, Tuesday))
    case Timer2DayWed => Some(DayBinding(Timer2, Wednesday))
    case Timer2DayThu => Some(DayBinding(Timer2, Thursday))
    case Timer2DayFri => Some(DayBinding(Timer2, Friday))
    case Timer2DaySat => Some(DayBinding(Timer2, Saturday))
    case Timer2DaySun => Some(DayBinding(Timer2, Sunday))
    case Timer3DayMon => Some(DayBinding(Timer3, Monday))
    case Timer3DayTue => Some(DayBinding(Timer3, Tuesday))
    case Timer3DayWed => Some(DayBinding(Timer3, Wednesday))
    case Timer3DayThu => Some(DayBinding(Timer3, Thursday))
    case Timer3DayFri => Some(DayBinding(Timer3, Friday))
    case Timer3DaySat => Some(DayBinding(Timer3, Saturday))
    case Timer3DaySun => Some(DayBinding(Timer3, Sunday))
    case _ => None
  }

  /** The setter call a binding calls for a command; a command of another kind is ignored. */
  function EditFor(b: Binding, cmd: Command): Option<Edit>
  {
    match (b, cmd)
    case (PreferenceBinding, StringCmd(s)) => Some(SetPreference(s))
    case (ModeBinding, StringCmd(s)) => Some(SetMode(s))
    case (EnableBinding(k), OnOffCmd(on)) => Some(SetEnabled(k, on))
    case (DayBinding(k, d), OnOffCmd(on)) => Some(SetDayEnabled(k, d, on))
    case (TimeBinding(k, true), DecimalCmd(v)) => Some(SetHour(k, v))
    case (TimeBinding(k, false), DecimalCmd(v)) => Some(SetMinute(k, v))
    case _ => None
  }

  /** Whether a binding addresses profile key `k` (preference and mode address none). */
  function BindingKey(b: Binding): Option<ProfileKey>
  {
    match b
    case PreferenceBinding => None
    case ModeBinding => None
    case EnableBinding(k) => Some(k)
    case TimeBinding(k, _) => Some(k)
    case DayBinding(k, _) => Some(k)
  }

  /** The enable table holds exactly the channels bound to an enable switch, with their keys. */
  lemma EnableTableMatches(id: ChannelId)
    ensures id in ChargeEnableChannelKeys <==> BindingOf(id).Some? && BindingOf(id).value.EnableBinding?
    ensures id in ChargeEnableChannelKeys ==> BindingOf(id).value.key == ChargeEnableChannelKeys[id]
  {
    EnableTableSound(id);
    EnableTableComplete(id);
  }

  /** Every entry of the enable table is the channel's binding. */
  lemma EnableTableSound(id: ChannelId)
    ensures id in ChargeEnableChannelKeys ==> BindingOf(id) == Some(EnableBinding(ChargeEnableChannelKeys[id]))
  {
    match id
    case ProfileClimate =>
    case Timer1Enabled =>
    case Timer2Enabled =>
    case Timer3Enabled =>
    case OverrideEnabled =>
    case _ =>
  }

  /** Every channel bound to an enable switch has an entry in the enable table. */
  lemma EnableTableComplete(id: ChannelId)
    ensures BindingOf(id).Some? && BindingOf(id).value.EnableBinding? ==> id in ChargeEnableChannelKeys
  {
  }

  /** The time table holds exactly the channels bound to an hour or minute, with key and flag. */
  lemma TimeTableMatches(id: ChannelId)
    ensures id in ChargeTimeChannelKeys <==> BindingOf(id).Some? && BindingOf(id).value.TimeBinding?
    ensures id in ChargeTimeChannelKeys ==>
      BindingOf(id).value == TimeBinding(ChargeTimeChannelKeys[id].key, ChargeTimeChannelKeys[id].isHour)
  {
    TimeTableSound(id);
    TimeTableComplete(id);
  }

  /** Every entry of the time table is the channel's binding. */
  lemma TimeTableSound(id: ChannelId)
    ensures id in ChargeTimeChannelKeys ==>
      BindingOf(id) == Some(TimeBinding(ChargeTimeChannelKeys[id].key, ChargeTimeChannelKeys[id].isHour))
  {
    match id
    case WindowStartHour =>
    case WindowStartMinute =>
    case WindowEndHour =>
    case WindowEndMinute =>
    case Timer1DepartureHour =>
    case Timer1DepartureMinute =>
    case Timer2DepartureHour =>
    case Timer2DepartureMinute =>
    case Timer3DepartureHour =>
    case Timer3DepartureMinute =>
    case OverrideDepartureHour =>
    case OverrideDepartureMinute =>
    case _ =>
  }

  /** Every channel bound to an hour or a minute has an entry in the time table. */
  lemma TimeTableComplete(id: ChannelId)
    ensures BindingOf(id).Some? && BindingOf(id).value.TimeBinding? ==> id in ChargeTimeChannelKeys
  {
  }

  /** The day table holds exactly the channels bound to a timer day, with key and day. */
  lemma DayTableMatches(id: ChannelId)
    ensures id in ChargeDayChannelKeys <==> BindingOf(id).Some? && BindingOf(id).value.DayBinding?
    ensures id in ChargeDayChannelKeys ==>
      BindingOf(id).value == DayBinding(ChargeDayChannelKeys[id].key, ChargeDayChannelKeys[id].day)
  {
    DayTableSound(id);
    DayTableComplete(id);
  }

  /** Every entry of the day table is the channel's binding. */
  lemma DayTableSound(id: ChannelId)
    ensures id in ChargeDayChannelKeys ==>
      BindingOf(id) == Some(DayBinding(ChargeDayChannelKeys[id].key, ChargeDayChannelKeys[id].day))
  {
    match id
    case Timer1DayMon =>
    case Timer1DayTue =>
    case Timer1DayWed =>
    case Timer1DayThu =>
    case Timer1DayFri =>
    case Timer1DaySat =>
    case Timer1DaySun =>
    case Timer2DayMon =>
    case Timer2DayTue =>
    case Timer2DayWed =>
    case Timer2DayThu =>
    case Timer2DayFri =>
    case Timer2DaySat =>
    case Timer2DaySun =>
    case Timer3DayMon =>
    case Timer3DayTue =>
    case Timer3DayWed =>
    case Timer3DayThu =>
    case Timer3DayFri =>
    case Timer3DaySat =>
    case Timer3DaySun =>
    case _ =>
  }

  /** Every channel bound to a timer day has an entry in the day table. */
  lemma DayTableComplete(id: ChannelId)
    ensures BindingOf(id).Some? && BindingOf(id).value.DayBinding? ==> id in ChargeDayChannelKeys
  {
  }

  /**
   * The dispatch through the three tables agrees with the reference binding on
   * every channel and every command: a command is processed exactly when the
   * channel is bound and the command has the kind the binding takes, and then the
   * setter is the one the binding names (hour or minute as its flag says), on
   * the profile key the binding names and no other.
   */
  lemma DispatchFollowsBinding(id: ChannelId, cmd: Command)
    ensures Dispatch(id, cmd) == (if BindingOf(id).Some? then EditFor(BindingOf(id).value, cmd) else None)
    ensures Dispatch(id, cmd).Some? ==> KeyOf(Target(Dispatch(id, cmd).value)) == BindingKey(BindingOf(id).value)
  {
    EnableTableMatches(id);
    TimeTableMatches(id);
    DayTableMatches(id);
    if BindingOf(id).Some? {
      EditForKey(BindingOf(id).value, cmd);
    }
  }

  /** The setter a binding calls writes a field of the binding's profile key. */
  lemma EditForKey(b: Binding, cmd: Command)
    ensures EditFor(b, cmd).Some? ==> KeyOf(Target(EditFor(b, cmd).value)) == BindingKey(b)
  {
  }

  /** No channel is in two tables, so looking up the enable table first shadows nothing. */
  lemma TablesDisjoint(id: ChannelId)
    ensures !(id in ChargeEnableChannelKeys && id in ChargeDayChannelKeys)
    ensures !(id in ChargeEnableChannelKeys && id in ChargeTimeChannelKeys)
    ensures !(id in ChargeTimeChannelKeys && id in ChargeDayChannelKeys)
  {
    EnableTableMatches(id);
    TimeTableMatches(id);
    DayTableMatches(id);
  }
}
