/**
  The segmenter's own settings, read from the settings dictionary when the
  partition object is set up (eventSegment._init).
 */
module SegmentSettings {
  import opened Wrappers
  import opened Samples

  /**
    A value found in the settings dictionary: a number, or something that
    float()/int() cannot convert.
   */
  datatype SettingValue = Num(x: real) | Malformed

  type SettingsDict = map<string, SettingValue>

  datatype Settings = Settings(
    blockSizeSec: real,
    eventPad: int,
    minEventLength: int,
    eventThreshold: real,
    meanOpenCurr: real,
    sdOpenCurr: real,
    slopeOpenCurr: real)

  datatype SetupError =
    | SettingsTypeError   // a setting that cannot be converted
    | NegativeEventPad    // deque(maxlen=eventPad) refuses a negative length

  /** The keys the segmenter pops from the settings dictionary. */
  const SettingKeys: set<string> :=
    {"blockSizeSec", "eventPad", "minEventLength", "eventThreshold",
     "meanOpenCurr", "sdOpenCurr", "slopeOpenCurr"}

  /** float(d.pop(key, default)) */
  function FloatSetting(d: SettingsDict, key: string, default: real): Result<real, SetupError> {
    if key !in d then Success(default)
    else match d[key]
      case Num(x) => Success(x)
      case Malformed => Failure(SettingsTypeError)
  }

  /** int(d.pop(key, default)); a fractional number is truncated toward zero. */
  function IntSetting(d: SettingsDict, key: string, default: int): Result<int, SetupError> {
    if key !in d then Success(default)
    else match d[key]
      case Num(x) => Success(TruncToInt(x))
      case Malformed => Failure(SettingsTypeError)
  }

  /** The value a key takes: the dictionary's when present, the default otherwise. */
  predicate Takes(d: SettingsDict, key: string, default: real, v: real) {
    if key in d then d[key] == Num(v) else v == default
  }

  predicate TakesInt(d: SettingsDict, key: string, default: int, v: int) {
    if key in d then d[key].Num? && v == TruncToInt(d[key].x) else v == default
  }

  /**
    The settings block of _init: each of the seven settings is popped with
    its default; a value that does not convert aborts the setup.
   */
  function ParseSettings(d: SettingsDict): (r: Result<Settings, SetupError>)
    ensures r.Failure? ==> r.error == SettingsTypeError
  {
    var blockSizeSec :- FloatSetting(d, "blockSizeSec", 1.0);
    var eventPad :- IntSetting(d, "eventPad", 500);
    var minEventLength :- IntSetting(d, "minEventLength", 5);
    var eventThreshold :- FloatSetting(d, "eventThreshold", 6.0);
    var meanOpenCurr :- FloatSetting(d, "meanOpenCurr", -1.0);
    var sdOpenCurr :- FloatSetting(d, "sdOpenCurr", -1.0);
    var slopeOpenCurr :- FloatSetting(d, "slopeOpenCurr", -1.0);
    Success(Settings(blockSizeSec, eventPad, minEventLength, eventThreshold,
                     meanOpenCurr, sdOpenCurr, slopeOpenCurr))
  }

  /**
    The settings block succeeds exactly when every setting present converts,
    and each setting then takes the dictionary's value, or its default when
    the key is absent.
   */
  lemma ParseSettingsReads(d: SettingsDict)
    ensures var r := ParseSettings(d);
      r.Success? <==> forall k | k in SettingKeys && k in d :: d[k].Num?
    ensures var r := ParseSettings(d);
      r.Success? ==>
        && Takes(d, "blockSizeSec", 1.0, r.value.blockSizeSec)
        && TakesInt(d, "eventPad", 500, r.value.eventPad)
        && TakesInt(d, "minEventLength", 5, r.value.minEventLength)
        && Takes(d, "eventThreshold", 6.0, r.value.eventThreshold)
        && Takes(d, "meanOpenCurr", -1.0, r.value.meanOpenCurr)
        && Takes(d, "sdOpenCurr", -1.0, r.value.sdOpenCurr)
        && Takes(d, "slopeOpenCurr", -1.0, r.value.slopeOpenCurr)
  {
  }

  /**
    thrCurr: a sample below this magnitude starts an event. With a
    non-negative eventThreshold it sits at or below the open-channel level,
    strictly below it when the threshold and the SD are both non-zero.
   */
  function ThresholdCurrent(s: Settings): (r: real)
    ensures 0.0 <= s.eventThreshold ==> r <= Abs(s.meanOpenCurr)
    ensures 0.0 < s.eventThreshold && s.sdOpenCurr != 0.0 ==> r < Abs(s.meanOpenCurr)
  {
    Abs(s.meanOpenCurr) - s.eventThreshold * Abs(s.sdOpenCurr)
  }

  /** With no settings at all, every default of _init is used. */
  lemma DefaultSettings()
    ensures ParseSettings(map[]) == Success(Settings(1.0, 500, 5, 6.0, -1.0, -1.0, -1.0))
    ensures ThresholdCurrent(ParseSettings(map[]).value) == -5.0
  {
  }
}
