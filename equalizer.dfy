/**
 * The equalizer page's mutable control state and the handlers that change it:
 * loading the page, dragging a band slider, pressing a preset button, toggling
 * bypass, creating the audio context and wiring the audio graph.
 *
 * Web Audio filters and DOM controls are plain indexed records; the gain vector
 * and the preset rows stay arrays, so that the copy made by a preset button and
 * the in-place write of a slider can be told apart.
 */
module EqualizerApp {
  import opened Wrappers
  import opened JsNumber
  import opened Presets
  import opened AudioGraph

  /** A peaking filter: its band frequency and its current gain in dB. */
  datatype BiquadFilter = BiquadFilter(frequency: int, gain: real)

  /** A band's slider value and the text of its value label. */
  datatype BandControl = BandControl(sliderValue: string, valueLabel: string)

  /** The control of a band showing gain g: the slider set to g, the label "<g> dB". */
  function ControlShowing(g: Gain): BandControl
  {
    BandControl(NumberText(g), NumberText(g) + " dB")
  }

  /**
   * A control shows its gain faithfully: reading the slider back with `Number`
   * gives the gain, and no two gains are shown alike.
   */
  lemma ControlShowingMeaning(g: Gain, h: Gain)
    ensures ParseDecimal(ControlShowing(g).sliderValue) == Some(g as real)
    ensures ControlShowing(g) == ControlShowing(h) ==> g == h
  {
    NumberTextRoundTrip(g);
    if ControlShowing(g) == ControlShowing(h) {
      NumberTextInjective(g, h);
    }
  }

  /** `createFilters` as written: one filter per band, every gain 0. */
  function CreateFiltersAsWritten(): (filters: seq<BiquadFilter>)
    ensures |filters| == |BANDS|
    ensures forall i :: 0 <= i < |filters| ==> filters[i] == BiquadFilter(BANDS[i], 0.0)
  {
    seq(|BANDS|, i requires 0 <= i < |BANDS| => BiquadFilter(BANDS[i], 0.0))
  }

  /** `createFilters` as intended: one filter per band, tuned to the band's current gain. */
  function CreateFilters(gains: seq<Gain>): (filters: seq<BiquadFilter>)
    requires |gains| == |BANDS|
    ensures |filters| == |BANDS|
    ensures forall i :: 0 <= i < |filters| ==> filters[i] == BiquadFilter(BANDS[i], gains[i])
  {
    seq(|BANDS|, i requires 0 <= i < |BANDS| => BiquadFilter(BANDS[i], gains[i]))
  }

  /**
   * The two ways of creating the filters agree exactly when every band gain is
   * 0: filters created as written match the gains only while the gains are flat.
   */
  lemma {:induction false} AsWrittenAgreesIffFlat(gains: seq<Gain>)
    requires |gains| == |BANDS|
    ensures CreateFiltersAsWritten() == CreateFilters(gains) <==> gains == ZEROS
  {
    if CreateFiltersAsWritten() == CreateFilters(gains) {
      forall i | 0 <= i < |BANDS|
        ensures gains[i] == ZEROS[i]
      {
        assert CreateFiltersAsWritten()[i] == CreateFilters(gains)[i];
      }
    }
  }

  /** A fresh array holding the given row (`Array(10).fill(0)` and the table's literals). */
  method NewRow(row: seq<Gain>) returns (a: array<Gain>)
    ensures fresh(a) && a[..] == row
  {
    a := new Gain[|row|](i requires 0 <= i < |row| => row[i]);
  }

  /** The preset table, each row a fresh array. */
  method NewPresetTable() returns (table: map<string, array<Gain>>)
    ensures table.Keys == PRESETS.Keys
    ensures forall k :: k in table ==> fresh(table[k]) && table[k][..] == PRESETS[k]
  {
    var flat := NewRow(PRESETS["flat"]);
    var rock := NewRow(PRESETS["rock"]);
    var bass := NewRow(PRESETS["bass"]);
    table := map["flat" := flat, "rock" := rock, "bass" := bass];
  }

  /** `[...row]`: a fresh array with the same entries. */
  method CopyRow(row: array<Gain>) returns (copy: array<Gain>)
    ensures fresh(copy) && copy[..] == row[..]
  {
    copy := new Gain[row.Length](i reads row requires 0 <= i < row.Length => row[i]);
  }

  /**
   * The equalized part of `connectAudioGraph`: starting at the source, connect
   * the current node to each filter in band order and move on to that filter,
   * then connect the last node to the master gain and the master gain to the output.
   */
  method WireChain(filterCount: nat) returns (connected: seq<Edge>)
    ensures connected == PathEdges(Route(filterCount))
  {
    ghost var route := Route(filterCount);
    connected := [];
    var currentNode := Source;
    var i := 0;
    while i < filterCount
      invariant 0 <= i <= filterCount
      invariant currentNode == route[i]
      invariant connected == PathEdges(route[..i + 1])
    {
      PathEdgesExtend(route[..i + 1], Filter(i));
      assert route[..i + 1] + [Filter(i)] == route[..i + 2];
      connected := connected + [Edge(currentNode, Filter(i))];
      currentNode := Filter(i);
      i := i + 1;
    }
    PathEdgesExtend(route[..filterCount + 1], Master);
    assert route[..filterCount + 1] + [Master] == route[..filterCount + 2];
    PathEdgesExtend(route[..filterCount + 2], Destination);
    assert route[..filterCount + 2] + [Destination] == route;
    connected := connected + [Edge(currentNode, Master)];
    connected := connected + [Edge(Master, Destination)];
  }

  class Equalizer {
    /** The preset table; each row is an array, as in the page script. */
    const presets: map<string, array<Gain>>
    /** `state.gains`: one gain per band. */
    var gains: array<Gain>
    /** `state.currentPreset`. */
    var currentPreset: string
    /** `state.bypass`. */
    var bypass: bool
    /** Whether `state.context` (with its filters and master gain) has been created. */
    var hasContext: bool
    /** Whether `state.source` has been created. */
    var hasSource: bool
    /** `state.filters`, empty until the audio context exists. */
    var filters: seq<BiquadFilter>
    /** `state.bandControls`: each band's slider and value label. */
    var bandControls: seq<BandControl>
    /** The connections currently made between the audio nodes. */
    var edges: seq<Edge>

    ghost function PresetArrays(): set<array<Gain>>
      reads this
    {
      set k | k in presets :: presets[k]
    }

    /**
     * The preset table holds its original rows and is not shared with the gain
     * vector; there is one gain, one control and (once the context exists) one
     * filter per band; the current preset is a table key.
     */
    ghost predicate Valid()
      reads this, gains, PresetArrays()
    {
      && presets.Keys == PRESETS.Keys
      && (forall k :: k in presets ==> presets[k] != gains && presets[k][..] == PRESETS[k])
      && gains.Length == |BANDS|
      && currentPreset in PRESETS
      && |bandControls| == |BANDS|
      && (hasContext ==>
            |filters| == |BANDS| && forall i :: 0 <= i < |filters| ==> filters[i].frequency == BANDS[i])
      && (!hasContext ==> filters == [] && !hasSource && edges == [])
    }

    /** The gains and the preset name, as a value. */
    ghost function Selected(): Selection
      reads this, gains
    {
      Selection(gains[..], currentPreset)
    }

    /** Every existing filter is set to its band's gain. */
    ghost predicate FiltersSynced()
      reads this, gains
    {
      |filters| <= gains.Length && forall i :: 0 <= i < |filters| ==> filters[i].gain == gains[i]
    }

    /** Every band control shows its band's gain. */
    ghost predicate ControlsSynced()
      reads this, gains
    {
      |bandControls| <= gains.Length &&
      forall i :: 0 <= i < |bandControls| ==> bandControls[i] == ControlShowing(gains[i])
    }

    /** Loading the page: the initial `state`, then `renderBands`. */
    constructor Load()
      ensures Valid() && FiltersSynced() && ControlsSynced()
      ensures fresh(gains) && fresh(PresetArrays())
      ensures Selected() == Selection(ZEROS, FLAT)
      ensures !bypass && !hasContext && edges == []
    {
      var table := NewPresetTable();
      var zeros := NewRow(ZEROS);
      presets := table;
      gains := zeros;
      currentPreset := FLAT;
      bypass := false;
      hasContext := false;
      hasSource := false;
      filters := [];
      bandControls := [];
      edges := [];
      new;
      RenderBands();
    }

    /** `renderBands`: one control per band, showing the band's gain. */
    method RenderBands()
      requires gains.Length == |BANDS|
      modifies this`bandControls
      ensures |bandControls| == |BANDS| && ControlsSynced()
    {
      var controls: seq<BandControl> := [];
      var i := 0;
      while i < |BANDS|
        invariant 0 <= i <= |BANDS|
        invariant |controls| == i
        invariant forall j :: 0 <= j < i ==> controls[j] == ControlShowing(gains[j])
      {
        controls := controls + [ControlShowing(gains[i])];
        i := i + 1;
      }
      bandControls := controls;
    }

    /**
     * The band slider's `input` handler: the dragged value, which the range input
     * keeps within -12..12 in steps of 0.5, is written into the gain vector in
     * place, shown by the band's control and, once it exists, set on the band's filter.
     */
    method OnSliderInput(index: nat, value: Gain)
      requires Valid() && index < |BANDS|
      modifies gains, this`filters, this`bandControls
      ensures Valid()
      ensures gains[..] == old(gains[..])[index := value]
      ensures filters ==
        if index < |old(filters)| then old(filters)[index := old(filters)[index].(gain := value)]
        else old(filters)
      ensures bandControls == old(bandControls)[index := ControlShowing(value)]
      ensures old(FiltersSynced()) ==> FiltersSynced()
      ensures old(ControlsSynced()) ==> ControlsSynced()
    {
      gains[index] := value;
      bandControls := bandControls[index := ControlShowing(value)];
      if index < |filters| {
        filters := filters[index := filters[index].(gain := value)];
      }
    }

    /**
     * `applyPreset`: "reset" installs a fresh all-zero gain vector and names the
     * flat preset; a table key installs a fresh copy of its row and names it; any
     * other key keeps both.  Then every filter and every control is set to the gains.
     */
    method ApplyPreset(key: string)
      requires Valid()
      modifies this`gains, this`currentPreset, this`filters, this`bandControls
      ensures Valid()
      ensures Selected() == SelectPreset(key, old(Selected()))
      ensures IsKnownKey(key) ==> fresh(gains)
      ensures !IsKnownKey(key) ==> gains == old(gains)
      ensures |filters| == |old(filters)|
      ensures forall i :: 0 <= i < |filters| ==> filters[i] == old(filters)[i].(gain := gains[i])
      ensures |bandControls| == |old(bandControls)|
      ensures FiltersSynced() && ControlsSynced()
    {
      InstallPreset(key);
      RetuneFilters();
      ShowGains();
    }

    /** The first half of `applyPreset`: replace the gains and the preset name. */
    method InstallPreset(key: string)
      requires Valid()
      modifies this`gains, this`currentPreset
      ensures Valid()
      ensures Selected() == SelectPreset(key, old(Selected()))
      ensures IsKnownKey(key) ==> fresh(gains)
      ensures !IsKnownKey(key) ==> gains == old(gains)
    {
      PresetRowsMatchBands();
      if key == RESET {
        gains := NewRow(ZEROS);
        currentPreset := FLAT;
      } else if key in presets {
        gains := CopyRow(presets[key]);
        currentPreset := key;
      }
    }

    /** `state.filters.forEach`: set every filter's gain to its band's gain. */
    method RetuneFilters()
      requires |filters| <= gains.Length
      modifies this`filters
      ensures |filters| == |old(filters)|
      ensures forall i :: 0 <= i < |filters| ==> filters[i] == old(filters)[i].(gain := gains[i])
      ensures FiltersSynced()
    {
      var retuned := filters;
      var i := 0;
      while i < |retuned|
        invariant 0 <= i <= |retuned| == |filters|
        invariant forall j :: 0 <= j < i ==> retuned[j] == filters[j].(gain := gains[j])
        invariant forall j :: i <= j < |retuned| ==> retuned[j] == filters[j]
      {
        retuned := retuned[i := retuned[i].(gain := gains[i])];
        i := i + 1;
      }
      filters := retuned;
    }

    /** `state.bandControls.forEach`: set every slider and value label to its band's gain. */
    method ShowGains()
      requires |bandControls| <= gains.Length
      modifies this`bandControls
      ensures |bandControls| == |old(bandControls)|
      ensures ControlsSynced()
    {
      var shown := bandControls;
      var i := 0;
      while i < |shown|
        invariant 0 <= i <= |shown| == |bandControls|
        invariant forall j :: 0 <= j < i ==> shown[j] == ControlShowing(gains[j])
      {
        shown := shown[i := ControlShowing(gains[i])];
        i := i + 1;
      }
      bandControls := shown;
    }

    /**
     * `ensureAudioContext` with `createFilters` as intended: the first call
     * creates the context and one filter per band, tuned to the current gains.
     */
    method EnsureAudioContext()
      requires Valid()
      modifies this`hasContext, this`filters
      ensures Valid() && hasContext
      ensures old(hasContext) ==> filters == old(filters)
      ensures !old(hasContext) ==> filters == CreateFilters(gains[..])
      ensures !old(hasContext) || old(FiltersSynced()) ==> FiltersSynced()
    {
      if !hasContext {
        hasContext := true;
        filters := CreateFilters(gains[..]);
      }
    }

    /**
     * `ensureAudioContext` as written: the first call creates one filter per
     * band with gain 0, whatever the sliders show.
     */
    method EnsureAudioContextAsWritten()
      requires Valid()
      modifies this`hasContext, this`filters
      ensures Valid() && hasContext
      ensures old(hasContext) ==> filters == old(filters)
      ensures !old(hasContext) ==> filters == CreateFiltersAsWritten()
    {
      if !hasContext {
        hasContext := true;
        filters := CreateFiltersAsWritten();
      }
    }

    /**
     * `connectAudioGraph`: nothing without a context; otherwise create the
     * source once, disconnect everything, and connect either the source straight
     * to the output (bypass) or the chain through every filter and the master gain.
     */
    method ConnectAudioGraph() returns (connected: seq<Edge>)
      requires Valid()
      modifies this`hasSource, this`edges
      ensures Valid()
      ensures !hasContext ==> connected == [] && edges == old(edges) && hasSource == old(hasSource)
      ensures hasContext ==>
        hasSource && edges == connected &&
        connected == PathEdges(if bypass then BYPASS_ROUTE else Route(|BANDS|))
    {
      if !hasContext {
        return [];
      }
      if !hasSource {
        hasSource := true;
      }
      edges := [];
      if bypass {
        BypassGraphShape();
        connected := [Edge(Source, Destination)];
        edges := connected;
        return;
      }
      connected := WireChain(|filters|);
      edges := connected;
    }

    /**
     * The bypass checkbox's `change` handler: set the flag, create the context
     * (with filters at 0 dB on the first call) and rewire the graph.
     */
    method OnBypassChange(checked: bool) returns (connected: seq<Edge>)
      requires Valid()
      modifies this`bypass, this`hasContext, this`filters, this`hasSource, this`edges
      ensures Valid() && bypass == checked && hasContext && hasSource
      ensures gains == old(gains) && gains[..] == old(gains[..]) && currentPreset == old(currentPreset)
      ensures old(hasContext) ==> filters == old(filters)
      ensures !old(hasContext) ==> filters == CreateFiltersAsWritten()
      ensures edges == connected
      ensures connected == PathEdges(if checked then BYPASS_ROUTE else Route(|BANDS|))
    {
      bypass := checked;
      EnsureAudioContextAsWritten();
      connected := ConnectAudioGraph();
    }

    /**
     * The bypass checkbox's handler with filters created from the gains: filters
     * that matched the gains, or that did not exist yet, match them afterwards.
     */
    method OnBypassChangeCorrected(checked: bool) returns (connected: seq<Edge>)
      requires Valid()
      modifies this`bypass, this`hasContext, this`filters, this`hasSource, this`edges
      ensures Valid() && bypass == checked && hasContext && hasSource
      ensures gains == old(gains) && gains[..] == old(gains[..]) && currentPreset == old(currentPreset)
      ensures old(hasContext) ==> filters == old(filters)
      ensures !old(hasContext) ==> filters == CreateFilters(gains[..])
      ensures !old(hasContext) || old(FiltersSynced()) ==> FiltersSynced()
      ensures edges == connected
      ensures connected == PathEdges(if checked then BYPASS_ROUTE else Route(|BANDS|))
    {
      bypass := checked;
      EnsureAudioContext();
      connected := ConnectAudioGraph();
    }

    /**
     * A preset button's `click` handler: create the context as written, then
     * apply the preset, which retunes every filter whichever way it was created.
     */
    method OnPresetClick(key: string)
      requires Valid()
      modifies this`hasContext, this`gains, this`currentPreset, this`filters, this`bandControls
      ensures Valid() && hasContext
      ensures Selected() == SelectPreset(key, old(Selected()))
      ensures FiltersSynced() && ControlsSynced()
    {
      EnsureAudioContextAsWritten();
      ApplyPreset(key);
    }
  }

  /**
   * Moving band 0 to 6 dB before any audio exists and then creating the context
   * as written (the first bypass toggle, play or file choice does so) leaves the
   * band's slider at 6 dB and its filter at 0 dB.
   */
  method StaleFilterScenario() returns (shown: real, applied: real)
    ensures shown == 6.0 && applied == 0.0
  {
    var eq := new Equalizer.Load();
    eq.OnSliderInput(0, 6.0);
    eq.EnsureAudioContextAsWritten();
    shown := eq.gains[0];
    applied := eq.filters[0].gain;
  }

  /** The same sequence with filters created from the gains keeps them in step. */
  method SyncedFilterScenario() returns (shown: real, applied: real)
    ensures shown == 6.0 && applied == 6.0
  {
    var eq := new Equalizer.Load();
    eq.OnSliderInput(0, 6.0);
    eq.EnsureAudioContext();
    shown := eq.gains[0];
    applied := eq.filters[0].gain;
  }
}
