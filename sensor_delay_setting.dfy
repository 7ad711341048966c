/**
 * The sensor-delay slider of the settings screen
 * (ui/screen/settings/SensorDelaySetting.kt; SettingsScreen.kt in the same
 * package holds an identical copy of the tables and lookups, modelled by the
 * same members).
 *
 * The preference store holds the delay as an `Int`, so a delay is an `int`
 * here and the four `SensorManager` constants carry Android's values. Kotlin's
 * `mapOf` keeps insertion order, so each table is its ordered list of entries.
 */
module SensorDelaySettings {
  import opened Wrappers
  import opened RealRounding

  const SensorDelayFastest: int := 0
  const SensorDelayGame: int := 1
  const SensorDelayUi: int := 2
  const SensorDelayNormal: int := 3

  /** The delay the store reports before anything was written, and the value shown before it first emits. */
  const DefaultSensorDelay: int := SensorDelayFastest

  /** The four delays in slider order, slowest first. */
  const SliderDelays: seq<int> := [SensorDelayUi, SensorDelayNormal, SensorDelayGame, SensorDelayFastest]

  /** The labels of the four delays in slider order. */
  const SliderLabels: seq<string> := ["Slow", "Normal", "Fast", "Fastest"]

  /** Slider position (0-3) to delay constant. */
  const SliderToSensorDelay: seq<(int, int)> :=
    [(0, SensorDelayUi), (1, SensorDelayNormal), (2, SensorDelayGame), (3, SensorDelayFastest)]

  /** Delay constant to the name shown beside the slider. */
  const SensorDelayToDisplayName: seq<(int, string)> :=
    [(SensorDelayFastest, "Fastest"), (SensorDelayGame, "Fast"), (SensorDelayNormal, "Normal"), (SensorDelayUi, "Slow")]

  /** No key occurs twice in an entry list. */
  predicate DistinctKeys<K(==), V>(entries: seq<(K, V)>) {
    forall i, j :: 0 <= i < j < |entries| ==> entries[i].0 != entries[j].0
  }

  /** `map[key]`: the value stored under `key`, if any. */
  function Get<K(==), V(==)>(entries: seq<(K, V)>, key: K): (r: Option<V>)
    requires DistinctKeys(entries)
    ensures r.None? <==> forall i :: 0 <= i < |entries| ==> entries[i].0 != key
    ensures r.Some? ==> (key, r.value) in entries
  {
    if |entries| == 0 then None
    else if entries[0].0 == key then Some(entries[0].1)
    else Get(entries[1..], key)
  }

  /** `map.entries.find { it.value == value }`: the first entry, in insertion order, holding `value`. */
  function FindByValue<K, V(==)>(entries: seq<(K, V)>, value: V): (r: Option<(K, V)>)
    ensures r.None? <==> forall i :: 0 <= i < |entries| ==> entries[i].1 != value
    ensures r.Some? ==> exists i :: 0 <= i < |entries| && entries[i] == r.value && r.value.1 == value
                          && forall j :: 0 <= j < i ==> entries[j].1 != value
  {
    if |entries| == 0 then None
    else if entries[0].1 == value then Some(entries[0])
    else
      var r := FindByValue(entries[1..], value);
      assert forall j :: 0 <= j < |entries| - 1 ==> entries[1..][j] == entries[j + 1];
      r
  }

  /** No value occurs twice in an entry list. */
  predicate DistinctValues<K, V(==)>(entries: seq<(K, V)>) {
    forall i, j :: 0 <= i < j < |entries| ==> entries[i].1 != entries[j].1
  }

  /** Looking up the key of the i-th entry yields that entry's value. */
  lemma GetEntry<K, V>(entries: seq<(K, V)>, i: int)
    requires DistinctKeys(entries)
    requires 0 <= i < |entries|
    ensures Get(entries, entries[i].0) == Some(entries[i].1)
  {
  }

  /** Searching for the value of the i-th entry finds that entry. */
  lemma FindEntry<K, V>(entries: seq<(K, V)>, i: int)
    requires DistinctValues(entries)
    requires 0 <= i < |entries|
    ensures FindByValue(entries, entries[i].1) == Some(entries[i])
  {
  }

  /** Kotlin's `Float.toInt()`: rounds toward zero. */
  function TruncateToInt(x: real): (n: int)
    ensures 0.0 <= x ==> n as real <= x < n as real + 1.0
    ensures x < 0.0 ==> n as real - 1.0 < x <= n as real
  {
    if x >= 0.0 then x.Floor else Ceiling(x)
  }

  /** The name shown for the current delay; an unlisted delay reads "Normal". */
  function DelayLabel(delay: int): (r: string)
    ensures forall i :: 0 <= i < 4 && SliderDelays[i] == delay ==> r == SliderLabels[i]
    ensures delay !in SliderDelays ==> r == "Normal"
  {
    assert DistinctKeys(SensorDelayToDisplayName);
    GetEntry(SensorDelayToDisplayName, 0);
    GetEntry(SensorDelayToDisplayName, 1);
    GetEntry(SensorDelayToDisplayName, 2);
    GetEntry(SensorDelayToDisplayName, 3);
    Get(SensorDelayToDisplayName, delay).GetOr("Normal")
  }

  /** Where the slider sits for the current delay: a listed delay's index, 2 for an unlisted one. */
  function SliderPosition(delay: int): (r: real)
    ensures forall i :: 0 <= i < 4 && SliderDelays[i] == delay ==> r == i as real
    ensures delay !in SliderDelays ==> r == 2.0
  {
    assert DistinctValues(SliderToSensorDelay);
    FindEntry(SliderToSensorDelay, 0);
    FindEntry(SliderToSensorDelay, 1);
    FindEntry(SliderToSensorDelay, 2);
    FindEntry(SliderToSensorDelay, 3);
    match FindByValue(SliderToSensorDelay, delay)
    case Some(entry) => entry.0 as real
    case None => 2.0
  }

  /**
   * The delay written when the slider moves to `sliderValue`: the slot's delay
   * when the value truncates into 0..3, NORMAL otherwise.
   */
  function DelayForSlider(sliderValue: real): (r: int)
    ensures var i := TruncateToInt(sliderValue);
      (i < 0 || 4 <= i ==> r == SensorDelayNormal) &&
      (0 <= i < 4 ==> r == SliderDelays[i])
  {
    SliderTableIsBijection();
    Get(SliderToSensorDelay, TruncateToInt(sliderValue)).GetOr(SensorDelayNormal)
  }

  /** The slider table maps 0, 1, 2, 3 onto UI, NORMAL, GAME, FASTEST, one to one, and nothing else. */
  lemma SliderTableIsBijection()
    ensures DistinctKeys(SliderToSensorDelay)
    ensures forall i :: 0 <= i < 4 ==> Get(SliderToSensorDelay, i) == Some(SliderDelays[i])
    ensures forall i :: (i < 0 || 4 <= i) ==> Get(SliderToSensorDelay, i) == None
    ensures forall i, j :: 0 <= i < j < 4 ==> SliderDelays[i] != SliderDelays[j]
  {
    forall i | 0 <= i < 4
      ensures Get(SliderToSensorDelay, i) == Some(SliderDelays[i])
    {
      GetEntry(SliderToSensorDelay, i);
    }
  }

  /** Labels of the four delays, and read in slider order they go Slow, Normal, Fast, Fastest. */
  lemma DisplayNames()
    ensures DelayLabel(SensorDelayFastest) == "Fastest" && DelayLabel(SensorDelayGame) == "Fast"
    ensures DelayLabel(SensorDelayNormal) == "Normal" && DelayLabel(SensorDelayUi) == "Slow"
    ensures forall i :: 0 <= i < 4 ==> DelayLabel(DelayForSlider(i as real)) == SliderLabels[i]
  {
    assert SliderDelays[0] == SensorDelayUi && SliderDelays[1] == SensorDelayNormal;
    assert SliderDelays[2] == SensorDelayGame && SliderDelays[3] == SensorDelayFastest;
    forall i | 0 <= i < 4
      ensures DelayLabel(DelayForSlider(i as real)) == SliderLabels[i]
    {
      assert TruncateToInt(i as real) == i;
    }
  }

  /** Writing at position i and then positioning the slider for that delay gives back i. */
  lemma SliderRoundTrip(i: int)
    requires 0 <= i < 4
    ensures SliderPosition(DelayForSlider(i as real)) == i as real
  {
    assert TruncateToInt(i as real) == i;
  }

  /** Positioning the slider for a listed delay and writing at that position gives back the delay. */
  lemma DelayRoundTrip(delay: int)
    requires delay in SliderDelays
    ensures DelayForSlider(SliderPosition(delay)) == delay
  {
    var i :| 0 <= i < 4 && SliderDelays[i] == delay;
    assert TruncateToInt(i as real) == i;
  }

  /** An unlisted delay is labelled "Normal" but the slider sits at 2, which writes GAME, whose label is "Fast". */
  lemma UnknownDelayDisagrees(delay: int)
    requires delay !in SliderDelays
    ensures DelayLabel(delay) == "Normal"
    ensures SliderPosition(delay) == 2.0
    ensures DelayForSlider(SliderPosition(delay)) == SensorDelayGame
    ensures DelayLabel(DelayForSlider(SliderPosition(delay))) != DelayLabel(delay)
  {
    assert TruncateToInt(2.0) == 2;
    assert SliderDelays[2] == SensorDelayGame;
  }

  /** Before the store emits, the delay is FASTEST: label "Fastest", slider at 3. */
  lemma InitialDelay()
    ensures DelayLabel(DefaultSensorDelay) == "Fastest"
    ensures SliderPosition(DefaultSensorDelay) == 3.0
  {
    assert SliderDelays[3] == DefaultSensorDelay;
  }
}
