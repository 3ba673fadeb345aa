/**
 * The settings the detector and the capture path read.
 *
 * The user-defaults store is modelled as two maps, one for values written as
 * doubles and one for values written as integers. Reading a key that was
 * never written gives 0, as `UserDefaults.double(forKey:)` and
 * `UserDefaults.integer(forKey:)` do.
 */
module Settings {
  import opened Wrappers

  datatype Store = Store(doubles: map<string, real>, integers: map<string, int>)

  const WindowDurationKey := "detection.windowDuration"
  const MinPointsKey := "detection.minPoints"
  const TriggerAngleKey := "detection.triggerAngle"
  const MinRadiusKey := "detection.minRadius"
  const CooldownKey := "detection.cooldown"
  const SaveDestinationKey := "saveDestination"

  // Defaults of the five detection parameters.
  const DefaultWindowDuration: real := 1.4
  const DefaultMinPoints: int := 25
  const DefaultTriggerAngle: real := 1.5  // in turns
  const DefaultMinRadius: real := 30.0
  const DefaultCooldown: real := 2.5

  function ReadDouble(s: Store, key: string): (v: real)
    ensures key !in s.doubles ==> v == 0.0
    ensures key in s.doubles ==> v == s.doubles[key]
  {
    if key in s.doubles then s.doubles[key] else 0.0
  }

  function ReadInteger(s: Store, key: string): (v: int)
    ensures key !in s.integers ==> v == 0
    ensures key in s.integers ==> v == s.integers[key]
  {
    if key in s.integers then s.integers[key] else 0
  }

  function WriteDouble(s: Store, key: string, v: real): (t: Store)
    ensures ReadDouble(t, key) == v
    ensures forall k :: k != key ==> ReadDouble(t, k) == ReadDouble(s, k)
    ensures t.integers == s.integers
  {
    s.(doubles := s.doubles[key := v])
  }

  function WriteInteger(s: Store, key: string, v: int): (t: Store)
    ensures ReadInteger(t, key) == v
    ensures forall k :: k != key ==> ReadInteger(t, k) == ReadInteger(s, k)
    ensures t.doubles == s.doubles
  {
    s.(integers := s.integers[key := v])
  }

  // ---------------------------------------------------------------------
  // Comparable.clamped(to:default:)

  /** `x` lies in the closed range `lo...hi` of the order `less`. */
  predicate InRange<T>(x: T, lo: T, hi: T, less: (T, T) -> bool) {
    !less(x, lo) && !less(hi, x)
  }

  /** A value outside its closed range is replaced by `default`. */
  function Clamped<T>(x: T, lo: T, hi: T, default: T, less: (T, T) -> bool): T {
    if less(x, lo) || less(hi, x) then default else x
  }

  /** Clamped keeps exactly the in-range values and maps every other value to the default. */
  lemma ClampedSelects<T>(x: T, lo: T, hi: T, default: T, less: (T, T) -> bool)
    ensures InRange(x, lo, hi, less) ==> Clamped(x, lo, hi, default, less) == x
    ensures !InRange(x, lo, hi, less) ==> Clamped(x, lo, hi, default, less) == default
  {
  }

  /** The result is in range whenever the default is. */
  lemma ClampedInRange<T>(x: T, lo: T, hi: T, default: T, less: (T, T) -> bool)
    requires InRange(default, lo, hi, less)
    ensures InRange(Clamped(x, lo, hi, default, less), lo, hi, less)
  {
  }

  /** Clamping an already clamped value changes nothing. */
  lemma ClampedIdempotent<T>(x: T, lo: T, hi: T, default: T, less: (T, T) -> bool)
    requires InRange(default, lo, hi, less)
    ensures var c := Clamped(x, lo, hi, default, less); Clamped(c, lo, hi, default, less) == c
  {
  }

  predicate RealLess(a: real, b: real) { a < b }
  predicate IntLess(a: int, b: int) { a < b }

  // ---------------------------------------------------------------------
  // Detection getters: each reads its key and clamps it to its range.

  function WindowDuration(s: Store): (r: real)
    ensures 0.5 <= r <= 3.0
    ensures 0.5 <= ReadDouble(s, WindowDurationKey) <= 3.0 ==> r == ReadDouble(s, WindowDurationKey)
    ensures !(0.5 <= ReadDouble(s, WindowDurationKey) <= 3.0) ==> r == DefaultWindowDuration
  {
    Clamped(ReadDouble(s, WindowDurationKey), 0.5, 3.0, DefaultWindowDuration, RealLess)
  }

  function MinPoints(s: Store): (r: int)
    ensures 10 <= r <= 50
    ensures 10 <= ReadInteger(s, MinPointsKey) <= 50 ==> r == ReadInteger(s, MinPointsKey)
    ensures !(10 <= ReadInteger(s, MinPointsKey) <= 50) ==> r == DefaultMinPoints
  {
    Clamped(ReadInteger(s, MinPointsKey), 10, 50, DefaultMinPoints, IntLess)
  }

  function TriggerAngle(s: Store): (r: real)
    ensures 0.5 <= r <= 3.0
    ensures 0.5 <= ReadDouble(s, TriggerAngleKey) <= 3.0 ==> r == ReadDouble(s, TriggerAngleKey)
    ensures !(0.5 <= ReadDouble(s, TriggerAngleKey) <= 3.0) ==> r == DefaultTriggerAngle
  {
    Clamped(ReadDouble(s, TriggerAngleKey), 0.5, 3.0, DefaultTriggerAngle, RealLess)
  }

  function MinRadius(s: Store): (r: real)
    ensures 10.0 <= r <= 100.0
    ensures 10.0 <= ReadDouble(s, MinRadiusKey) <= 100.0 ==> r == ReadDouble(s, MinRadiusKey)
    ensures !(10.0 <= ReadDouble(s, MinRadiusKey) <= 100.0) ==> r == DefaultMinRadius
  {
    Clamped(ReadDouble(s, MinRadiusKey), 10.0, 100.0, DefaultMinRadius, RealLess)
  }

  function Cooldown(s: Store): (r: real)
    ensures 0.5 <= r <= 5.0
    ensures 0.5 <= ReadDouble(s, CooldownKey) <= 5.0 ==> r == ReadDouble(s, CooldownKey)
    ensures !(0.5 <= ReadDouble(s, CooldownKey) <= 5.0) ==> r == DefaultCooldown
  {
    Clamped(ReadDouble(s, CooldownKey), 0.5, 5.0, DefaultCooldown, RealLess)
  }

  /** A store in which no detection key was ever written yields every default. */
  lemma UnsetKeysGiveDefaults(s: Store)
    requires WindowDurationKey !in s.doubles && TriggerAngleKey !in s.doubles
    requires MinRadiusKey !in s.doubles && CooldownKey !in s.doubles
    requires MinPointsKey !in s.integers
    ensures WindowDuration(s) == DefaultWindowDuration && MinPoints(s) == DefaultMinPoints
    ensures TriggerAngle(s) == DefaultTriggerAngle && MinRadius(s) == DefaultMinRadius
    ensures Cooldown(s) == DefaultCooldown
  {
  }

  // Detection setters: each stores the value as given, unchecked.

  function SetWindowDuration(s: Store, v: real): (t: Store)
    ensures WindowDuration(t) == if 0.5 <= v <= 3.0 then v else DefaultWindowDuration
    ensures MinPoints(t) == MinPoints(s) && TriggerAngle(t) == TriggerAngle(s)
    ensures MinRadius(t) == MinRadius(s) && Cooldown(t) == Cooldown(s)
    ensures SaveDestinationOf(t) == SaveDestinationOf(s)
  {
    WriteDouble(s, WindowDurationKey, v)
  }

  function SetMinPoints(s: Store, v: int): (t: Store)
    ensures MinPoints(t) == if 10 <= v <= 50 then v else DefaultMinPoints
    ensures WindowDuration(t) == WindowDuration(s) && TriggerAngle(t) == TriggerAngle(s)
    ensures MinRadius(t) == MinRadius(s) && Cooldown(t) == Cooldown(s)
    ensures SaveDestinationOf(t) == SaveDestinationOf(s)
  {
    WriteInteger(s, MinPointsKey, v)
  }

  function SetTriggerAngle(s: Store, v: real): (t: Store)
    ensures TriggerAngle(t) == if 0.5 <= v <= 3.0 then v else DefaultTriggerAngle
    ensures WindowDuration(t) == WindowDuration(s) && MinPoints(t) == MinPoints(s)
    ensures MinRadius(t) == MinRadius(s) && Cooldown(t) == Cooldown(s)
    ensures SaveDestinationOf(t) == SaveDestinationOf(s)
  {
    WriteDouble(s, TriggerAngleKey, v)
  }

  function SetMinRadius(s: Store, v: real): (t: Store)
    ensures MinRadius(t) == if 10.0 <= v <= 100.0 then v else DefaultMinRadius
    ensures WindowDuration(t) == WindowDuration(s) && MinPoints(t) == MinPoints(s)
    ensures TriggerAngle(t) == TriggerAngle(s) && Cooldown(t) == Cooldown(s)
    ensures SaveDestinationOf(t) == SaveDestinationOf(s)
  {
    WriteDouble(s, MinRadiusKey, v)
  }

  function SetCooldown(s: Store, v: real): (t: Store)
    ensures Cooldown(t) == if 0.5 <= v <= 5.0 then v else DefaultCooldown
    ensures WindowDuration(t) == WindowDuration(s) && MinPoints(t) == MinPoints(s)
    ensures TriggerAngle(t) == TriggerAngle(s) && MinRadius(t) == MinRadius(s)
    ensures SaveDestinationOf(t) == SaveDestinationOf(s)
  {
    WriteDouble(s, CooldownKey, v)
  }

  /** resetDetectionToDefaults(): writes every default back. */
  function ResetDetectionToDefaults(s: Store): (t: Store)
    ensures WindowDuration(t) == DefaultWindowDuration && MinPoints(t) == DefaultMinPoints
    ensures TriggerAngle(t) == DefaultTriggerAngle && MinRadius(t) == DefaultMinRadius
    ensures Cooldown(t) == DefaultCooldown
    ensures SaveDestinationOf(t) == SaveDestinationOf(s)
  {
    var s1 := SetWindowDuration(s, DefaultWindowDuration);
    var s2 := SetMinPoints(s1, DefaultMinPoints);
    var s3 := SetTriggerAngle(s2, DefaultTriggerAngle);
    var s4 := SetMinRadius(s3, DefaultMinRadius);
    SetCooldown(s4, DefaultCooldown)
  }

  // ---------------------------------------------------------------------
  // Save destination

  datatype SaveDestination = Both | FileOnly | ClipboardOnly

  function RawValue(d: SaveDestination): int {
    match d
    case Both => 0
    case FileOnly => 1
    case ClipboardOnly => 2
  }

  /** SaveDestination(rawValue:): the case with that raw value, if any. */
  function FromRawValue(raw: int): (r: Option<SaveDestination>)
    ensures r.Some? <==> 0 <= raw <= 2
    ensures r.Some? ==> RawValue(r.value) == raw
  {
    if raw == 0 then Some(Both)
    else if raw == 1 then Some(FileOnly)
    else if raw == 2 then Some(ClipboardOnly)
    else None
  }

  /** Every case survives the raw-value round trip. */
  lemma RawValueRoundTrip(d: SaveDestination)
    ensures FromRawValue(RawValue(d)) == Some(d)
  {
  }

  /** The stored destination; an unset or unknown raw value falls back to `Both`. */
  function SaveDestinationOf(s: Store): (d: SaveDestination)
    ensures 0 <= ReadInteger(s, SaveDestinationKey) <= 2 ==> RawValue(d) == ReadInteger(s, SaveDestinationKey)
    ensures !(0 <= ReadInteger(s, SaveDestinationKey) <= 2) ==> d == Both
  {
    FromRawValue(ReadInteger(s, SaveDestinationKey)).GetOr(Both)
  }

  function SetSaveDestination(s: Store, d: SaveDestination): (t: Store)
    ensures SaveDestinationOf(t) == d
    ensures WindowDuration(t) == WindowDuration(s) && MinPoints(t) == MinPoints(s)
    ensures TriggerAngle(t) == TriggerAngle(s) && MinRadius(t) == MinRadius(s)
    ensures Cooldown(t) == Cooldown(s)
  {
    var t := WriteInteger(s, SaveDestinationKey, RawValue(d));
    RawValueRoundTrip(d);
    t
  }

  /** A store that never had a destination written delivers to both sinks. */
  lemma UnsetDestinationIsBoth(s: Store)
    requires SaveDestinationKey !in s.integers
    ensures SaveDestinationOf(s) == Both
  {
  }
}
