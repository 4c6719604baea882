/**
 * The fixed tables of the ten-band equalizer: the band centre frequencies, the
 * gain presets, how a band frequency is labelled, and what choosing a preset
 * does to the gain vector and the preset name.
 */
module Presets {
  import opened Wrappers
  import opened JsNumber

  /** Centre frequencies of the ten peaking filters, in Hz, lowest first. */
  const BANDS: seq<int> := [31, 62, 125, 250, 500, 1000, 2000, 4000, 8000, 16000]

  /** The labels the band list is shown with. */
  const BAND_LABELS: seq<string> :=
    ["31Hz", "62Hz", "125Hz", "250Hz", "500Hz", "1kHz", "2kHz", "4kHz", "8kHz", "16kHz"]

  /**
   * A band gain in dB.  Every gain comes from a preset row or from a band slider,
   * whose range is -12 to 12 in steps of 0.5.
   */
  type Gain = g: real | -12.0 <= g <= 12.0 && IsHalfStep(g) witness 0.0

  /** `Array(10).fill(0)`: the all-zero gain vector. */
  const ZEROS: seq<Gain> := [0.0, 0.0, 0.0, 0.0, 0.0, 0.0, 0.0, 0.0, 0.0, 0.0]

  /** The preset table: a 10-entry gain row per preset name. */
  const PRESETS: map<string, seq<Gain>> := map[
    "flat" := ZEROS,
    "rock" := [4.0, 3.0, 2.0, 1.0, -1.0, -1.0, 1.0, 3.0, 4.0, 5.0],
    "bass" := [6.0, 5.0, 3.0, 1.0, 0.0, -1.0, -1.0, -1.0, -2.0, -2.0]
  ]

  /** The preset name the page starts with and the one "reset" selects. */
  const FLAT := "flat"

  /** The preset button that zeroes every band. */
  const RESET := "reset"

  lemma PresetRowsMatchBands()
    ensures FLAT in PRESETS && PRESETS[FLAT] == ZEROS
    ensures RESET !in PRESETS
    ensures forall k :: k in PRESETS ==> |PRESETS[k]| == |BANDS|
  {
  }

  /**
   * A frequency whose label has an exact short form: within the modelled
   * magnitude, and below 1 kHz or a multiple of 0.5 kHz.
   */
  predicate HasShortLabel(frequency: int)
  {
    -HALF_STEP_BOUND <= frequency <= HALF_STEP_BOUND && (frequency < 1000 || frequency % 500 == 0)
  }

  /**
   * `formatFrequency`: from 1000 Hz up, the frequency in kHz followed by "kHz"
   * (f / 1000 is f / 500 halves); below, the frequency followed by "Hz".
   */
  function FormatFrequency(frequency: int): (text: string)
    requires HasShortLabel(frequency)
    ensures |text| >= 3 && text[|text| - 2..] == "Hz"
    ensures text[|text| - 3] == 'k' <==> frequency >= 1000
  {
    if frequency >= 1000 then HalvesText(frequency / 500) + "kHz"
    else IntegerText(frequency) + "Hz"
  }

  /** The label is the template `${f / 1000}kHz` or `${f}Hz`, with JavaScript's division and `String`. */
  lemma FormatFrequencyTemplate(frequency: int)
    requires HasShortLabel(frequency)
    ensures frequency >= 1000 ==>
      IsHalfStep(frequency as real / 1000.0) &&
      FormatFrequency(frequency) == NumberText(frequency as real / 1000.0) + "kHz"
    ensures frequency < 1000 ==>
      IsHalfStep(frequency as real) &&
      FormatFrequency(frequency) == NumberText(frequency as real) + "Hz"
  {
    if frequency >= 1000 {
      var m := frequency / 500;
      assert frequency == 500 * m;
      assert frequency as real / 1000.0 == m as real / 2.0;
      HalvesNumberText(m);
    } else {
      WholeText(frequency);
    }
  }

  /**
   * What a label means: it ends in "kHz" exactly when the frequency is at least
   * 1000 Hz, and the number in front of the unit reads back as the frequency in
   * that unit.
   */
  lemma {:induction false} FormatFrequencyMeaning(frequency: int)
    requires HasShortLabel(frequency)
    ensures var text := FormatFrequency(frequency);
      && |text| >= 3
      && text[|text| - 2..] == "Hz"
      && (text[|text| - 3] == 'k' <==> frequency >= 1000)
      && (frequency >= 1000 ==>
            ParseDecimal(text[..|text| - 3]) == Some(frequency as real / 1000.0))
      && (frequency < 1000 ==>
            ParseDecimal(text[..|text| - 2]) == Some(frequency as real))
  {
    var text := FormatFrequency(frequency);
    FormatFrequencyTemplate(frequency);
    if frequency >= 1000 {
      var number := NumberText(frequency as real / 1000.0);
      NumberTextRoundTrip(frequency as real / 1000.0);
      assert text[..|text| - 3] == number;
    } else {
      var number := NumberText(frequency as real);
      NumberTextRoundTrip(frequency as real);
      assert text[..|text| - 2] == number;
      assert text[|text| - 3] == number[|number| - 1];
    }
  }

  lemma LowBandLabels()
    ensures FormatFrequency(31) == "31Hz" && FormatFrequency(62) == "62Hz"
    ensures FormatFrequency(125) == "125Hz" && FormatFrequency(250) == "250Hz"
    ensures FormatFrequency(500) == "500Hz"
  {
    assert IntegerText(125) == "125" by { assert IntText(12) == "12"; }
    assert IntegerText(250) == "250" by { assert IntText(25) == "25"; }
    assert IntegerText(500) == "500" by { assert IntText(50) == "50"; }
  }

  lemma HighBandLabels()
    ensures FormatFrequency(1000) == "1kHz" && FormatFrequency(2000) == "2kHz"
    ensures FormatFrequency(4000) == "4kHz" && FormatFrequency(8000) == "8kHz"
    ensures FormatFrequency(16000) == "16kHz"
  {
    assert HalvesText(2) == "1" && HalvesText(4) == "2";
    assert HalvesText(8) == "4" && HalvesText(16) == "8";
    assert HalvesText(32) == "16" by { assert IntText(16) == "16"; }
  }

  /** The band list is labelled 31Hz … 500Hz, then 1kHz … 16kHz. */
  lemma BandLabels()
    ensures |BAND_LABELS| == |BANDS|
    ensures forall i :: 0 <= i < |BANDS| ==>
      HasShortLabel(BANDS[i]) && FormatFrequency(BANDS[i]) == BAND_LABELS[i]
  {
    LowBandLabels();
    HighBandLabels();
    forall i | 0 <= i < |BANDS|
      ensures HasShortLabel(BANDS[i]) && FormatFrequency(BANDS[i]) == BAND_LABELS[i]
    {
      assert BANDS == [31, 62, 125, 250, 500, 1000, 2000, 4000, 8000, 16000];
      assert i in {0, 1, 2, 3, 4, 5, 6, 7, 8, 9};
    }
  }

  /** The part of the equalizer state a preset button sets: the gain vector and the preset name. */
  datatype Selection = Selection(gains: seq<Gain>, preset: string)

  /**
   * `applyPreset`'s effect on the gains and the preset name: "reset" zeroes the
   * gains and names the flat preset, a table key loads a copy of its row, any
   * other key leaves both as they were.
   */
  function SelectPreset(key: string, current: Selection): (next: Selection)
    ensures IsKnownKey(key) ==> next.preset in PRESETS && next.gains == PRESETS[next.preset]
    ensures !IsKnownKey(key) ==> next == current
  {
    if key == RESET then Selection(ZEROS, FLAT)
    else if key in PRESETS then Selection(PRESETS[key], key)
    else current
  }

  /** A preset key is one the table or the reset button knows. */
  predicate IsKnownKey(key: string)
  {
    key == RESET || key in PRESETS
  }

  /**
   * After a known key the gains are the row of the preset that is now named;
   * an unknown key changes nothing; and the choice never leaves the table.
   */
  lemma SelectPresetMeaning(key: string, current: Selection)
    ensures var next := SelectPreset(key, current);
      && (IsKnownKey(key) ==> next.preset in PRESETS && next.gains == PRESETS[next.preset])
      && (!IsKnownKey(key) ==> next == current)
      && (key in PRESETS ==> next.preset == key)
      && (current.preset in PRESETS ==> next.preset in PRESETS)
      && (|current.gains| == |BANDS| ==> |next.gains| == |BANDS|)
  {
  }

  /** "reset" and "flat" select the same thing. */
  lemma ResetIsFlat(current: Selection)
    ensures SelectPreset(RESET, current) == SelectPreset(FLAT, current)
  {
  }

  /** Choosing the same preset twice is the same as choosing it once. */
  lemma SelectPresetIdempotent(key: string, current: Selection)
    ensures SelectPreset(key, SelectPreset(key, current)) == SelectPreset(key, current)
  {
  }

  /** The last known key decides: what came before it is forgotten. */
  lemma SelectPresetOverrides(first: string, second: string, current: Selection)
    requires IsKnownKey(second)
    ensures SelectPreset(second, SelectPreset(first, current)) == SelectPreset(second, current)
  {
  }
}
