/** The meeting configuration form (src/app/components/Daily/DailyConfig.tsx)
    and its defaults (src/app/components/Daily/defaultConfig.ts). Each form
    handler builds a new record with `{...config, [key]: value}`; the new
    record is returned rather than passed to `onConfigChange`. */
module DailyConfig {

  datatype VideoQuality = Low | Medium | High

  datatype Config = Config(
    disableVideo: bool,
    disableAudio: bool,
    enableScreenShare: bool,
    enableChat: bool,
    enableRecording: bool,
    enableClosedCaptions: bool,
    enableBackgroundBlur: bool,
    enableNoiseSuppression: bool,
    enableEchoCancellation: bool,
    enableLowBandwidthMode: bool,
    maxParticipants: int,
    videoQuality: VideoQuality)

  /** The ten checkbox keys. */
  datatype Flag =
    | DisableVideo | DisableAudio | EnableScreenShare | EnableChat | EnableRecording
    | EnableClosedCaptions | EnableBackgroundBlur | EnableNoiseSuppression
    | EnableEchoCancellation | EnableLowBandwidthMode

  /** What a checkbox reports: a boolean or `'indeterminate'`. */
  datatype CheckedState = Checked(checked: bool) | Indeterminate

  function FlagValue(c: Config, f: Flag): bool {
    match f
    case DisableVideo => c.disableVideo
    case DisableAudio => c.disableAudio
    case EnableScreenShare => c.enableScreenShare
    case EnableChat => c.enableChat
    case EnableRecording => c.enableRecording
    case EnableClosedCaptions => c.enableClosedCaptions
    case EnableBackgroundBlur => c.enableBackgroundBlur
    case EnableNoiseSuppression => c.enableNoiseSuppression
    case EnableEchoCancellation => c.enableEchoCancellation
    case EnableLowBandwidthMode => c.enableLowBandwidthMode
  }

  /** `{...c, [f]: v}` for a checkbox key. */
  function SetFlag(c: Config, f: Flag, v: bool): Config {
    match f
    case DisableVideo => c.(disableVideo := v)
    case DisableAudio => c.(disableAudio := v)
    case EnableScreenShare => c.(enableScreenShare := v)
    case EnableChat => c.(enableChat := v)
    case EnableRecording => c.(enableRecording := v)
    case EnableClosedCaptions => c.(enableClosedCaptions := v)
    case EnableBackgroundBlur => c.(enableBackgroundBlur := v)
    case EnableNoiseSuppression => c.(enableNoiseSuppression := v)
    case EnableEchoCancellation => c.(enableEchoCancellation := v)
    case EnableLowBandwidthMode => c.(enableLowBandwidthMode := v)
  }

  /** Writing one key leaves a different key alone. */
  lemma SetFlagFrame(c: Config, f: Flag, v: bool, g: Flag)
    ensures FlagValue(SetFlag(c, f, v), g) == if g == f then v else FlagValue(c, g)
    ensures SetFlag(c, f, v).maxParticipants == c.maxParticipants
    ensures SetFlag(c, f, v).videoQuality == c.videoQuality
  {
    match f
    case DisableVideo =>
    case DisableAudio =>
    case EnableScreenShare =>
    case EnableChat =>
    case EnableRecording =>
    case EnableClosedCaptions =>
    case EnableBackgroundBlur =>
    case EnableNoiseSuppression =>
    case EnableEchoCancellation =>
    case EnableLowBandwidthMode =>
  }

  /** `handleCheckboxChange`: the key becomes `value === true`, so
      `'indeterminate'` stores false; every other key keeps its value. */
  function HandleCheckboxChange(c: Config, f: Flag, value: CheckedState): (r: Config)
    ensures FlagValue(r, f) <==> value == Checked(true)
    ensures forall g :: g != f ==> FlagValue(r, g) == FlagValue(c, g)
    ensures r.maxParticipants == c.maxParticipants && r.videoQuality == c.videoQuality
  {
    var v := value == Checked(true);
    assert forall g :: FlagValue(SetFlag(c, f, v), g) == if g == f then v else FlagValue(c, g) by {
      forall g ensures FlagValue(SetFlag(c, f, v), g) == if g == f then v else FlagValue(c, g) {
        SetFlagFrame(c, f, v, g);
      }
    }
    SetFlagFrame(c, f, v, f);
    SetFlag(c, f, v)
  }

  /** Writing a key its own value changes nothing. */
  lemma SetFlagSame(c: Config, f: Flag)
    ensures SetFlag(c, f, FlagValue(c, f)) == c
  {
    match f
    case DisableVideo =>
    case DisableAudio =>
    case EnableScreenShare =>
    case EnableChat =>
    case EnableRecording =>
    case EnableClosedCaptions =>
    case EnableBackgroundBlur =>
    case EnableNoiseSuppression =>
    case EnableEchoCancellation =>
    case EnableLowBandwidthMode =>
  }

  /** Writing a key twice keeps only the second value. */
  lemma SetFlagTwice(c: Config, f: Flag, v: bool, w: bool)
    ensures SetFlag(SetFlag(c, f, v), f, w) == SetFlag(c, f, w)
  {
    match f
    case DisableVideo =>
    case DisableAudio =>
    case EnableScreenShare =>
    case EnableChat =>
    case EnableRecording =>
    case EnableClosedCaptions =>
    case EnableBackgroundBlur =>
    case EnableNoiseSuppression =>
    case EnableEchoCancellation =>
    case EnableLowBandwidthMode =>
  }

  /** Reporting a checkbox's current state changes nothing. */
  lemma CheckboxKeepsCurrent(c: Config, f: Flag)
    ensures HandleCheckboxChange(c, f, Checked(FlagValue(c, f))) == c
  {
    SetFlagSame(c, f);
  }

  /** Of two reports in a row for the same checkbox only the second counts. */
  lemma CheckboxLastWins(c: Config, f: Flag, v: CheckedState, w: CheckedState)
    ensures HandleCheckboxChange(HandleCheckboxChange(c, f, v), f, w) == HandleCheckboxChange(c, f, w)
  {
    SetFlagTwice(c, f, v == Checked(true), w == Checked(true));
  }

  /** `handleNumberChange('maxParticipants', value)`: the value is stored as
      given; the input's `min="1"` and `max="50"` are not enforced here. */
  function HandleNumberChange(c: Config, value: int): (r: Config)
    ensures r.maxParticipants == value
    ensures forall f :: FlagValue(r, f) == FlagValue(c, f)
    ensures r.videoQuality == c.videoQuality
  {
    c.(maxParticipants := value)
  }

  /** `handleQualityChange`: only `videoQuality` changes. */
  function HandleQualityChange(c: Config, value: VideoQuality): (r: Config)
    ensures r.videoQuality == value
    ensures forall f :: FlagValue(r, f) == FlagValue(c, f)
    ensures r.maxParticipants == c.maxParticipants
  {
    c.(videoQuality := value)
  }

  /** `defaultDailyConfig`. */
  const DefaultDailyConfig: Config := Config(
    false, false, false, false, false, false, false, false, false, false, 10, Medium)

  /** Every checkbox starts cleared, the participant limit starts at 10,
      inside the form's advertised 1..50, and the quality at medium. */
  lemma DefaultsAreConservative()
    ensures forall f :: !FlagValue(DefaultDailyConfig, f)
    ensures 1 <= DefaultDailyConfig.maxParticipants <= 50
    ensures DefaultDailyConfig.videoQuality == Medium
  {
  }

  /** A participant count outside the input's advertised 1..50 is stored
      unchanged, and the rest of the record keeps its values. */
  lemma NumberNotClamped(c: Config, value: int)
    requires value < 1 || value > 50
    ensures HandleNumberChange(c, value) == c.(maxParticipants := value)
    ensures !(1 <= HandleNumberChange(c, value).maxParticipants <= 50)
  {
  }

  datatype CreateButtonView = CreateButtonView(disabled: bool, caption: string)

  const CreatingLabel: string := "Creating Meeting..."
  const CreateLabel: string := "Create Meeting with Tavus"

  /** The create button under the form: disabled and relabelled while a
      creation is in flight. */
  function CreateButton(isLoading: bool): (v: CreateButtonView)
    ensures v.disabled <==> isLoading
    ensures v.caption == CreatingLabel <==> isLoading
  {
    if isLoading then CreateButtonView(true, CreatingLabel) else CreateButtonView(false, CreateLabel)
  }
}
