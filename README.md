# Ten-band equalizer: a verified model

This project models the control logic of the browser equalizer page in `app.js`.
The page plays an audio file through ten peaking filters, one per band from 31 Hz to 16 kHz.
Each band has a slider (-12 to 12 dB in steps of 0.5), and buttons load one of three gain presets or reset every band.
A bypass checkbox routes the audio around the filters.

The model covers:

- the band list and the preset table;
- `formatFrequency`, the band label text;
- the mutable `state`: the gain vector, the current preset name, the bypass flag, whether the audio context and source exist, the filters and the band controls;
- the handlers that change that state: loading the page (`renderBands`), the band slider's `input` handler, `applyPreset` with its preset-button handler, the bypass checkbox, and `ensureAudioContext` with `createFilters`;
- `connectAudioGraph`, as the list of connections it makes between symbolic audio nodes.

JavaScript's number-to-text conversion (`String(x)`, used by `${x} dB` and by `slider.value = x`) and text-to-number conversion (`Number(s)`) are modelled for the values the page holds: multiples of 0.5.
This lets the model state that a slider reads back exactly the gain it was given.

Modules:

- `JsNumber` (js_number.dfy): the two conversions and their round trip.
- `Presets` (presets.dfy): the bands, the preset table, `FormatFrequency`, and what a preset key selects.
- `AudioGraph` (audio_graph.dfy): audio nodes, edges, and the two routes.
- `EqualizerApp` (equalizer.dfy): class `Equalizer`, holding the page state and its handlers.
- `Wrappers` (wrappers.dfy): `Option`.

The gain vector and the preset rows are arrays, as in the script.
A preset button installs a fresh copy of a row, and a slider writes into the gain vector in place.
The class invariant `Valid()` keeps the table's rows unchanged and never shared with the gain vector.
Filters and band controls are plain records in sequences.

The repository also describes an image-collage layout engine.
None of its source is among the files modelled, so it is not part of this model.

## Model

| member | source | states |
|---|---|---|
| `JsNumber.NumberText` | app.js:109 | `String` of a gain is nonempty, ends in a digit, and starts with '-' exactly when the gain is negative |
| `JsNumber.ParseDecimal` | app.js:112 | `Number` succeeds only on nonempty text; a negative result comes only from text starting with '-', and such text never reads as a positive number |
| `JsNumber.NumberTextRoundTrip` | app.js:104-112 | a gain written into a slider as text (`String`) and read back with `Number` is the same gain |
| `JsNumber.NumberTextInjective` | app.js:109 | two different gains never get the same text |
| `Presets.PresetRowsMatchBands` | app.js:1-6 | the table has rows flat, rock and bass, each with one entry per band (10); flat is all zero; "reset" is not a table key |
| `Presets.FormatFrequency` | app.js:29-30 | a label ends in "Hz", and has 'k' before it exactly when the frequency is at least 1000 |
| `Presets.FormatFrequencyMeaning` | app.js:29-30 | a label ends in "Hz"; it ends in "kHz" exactly when the frequency is at least 1000; the number before the unit reads back as the frequency in kHz or Hz respectively |
| `Presets.FormatFrequencyTemplate` | app.js:29-30 | the label is `String(f / 1000)` followed by "kHz" from 1000 Hz up, and `String(f)` followed by "Hz" below, with exact division, for frequencies of magnitude at most 2^52 |
| `Presets.BandLabels` | app.js:88-94 | the ten bands are labelled 31Hz, 62Hz, 125Hz, 250Hz, 500Hz, 1kHz, 2kHz, 4kHz, 8kHz, 16kHz |
| `Presets.SelectPreset` | app.js:131-138 | after "reset" or a table key, the preset name is a table key and the gains are that preset's row; any other key leaves the selection as it was |
| `Presets.SelectPresetMeaning` | app.js:131-138 | after "reset" or a table key, the gains are the row of the preset now named; a table key becomes the preset name; any other key changes neither; the preset name stays a table key; the gain vector keeps its length |
| `Presets.ResetIsFlat` | app.js:131-137 | "reset" selects exactly what the "flat" key selects |
| `Presets.SelectPresetIdempotent` | app.js:131-138 | pressing the same preset twice is the same as pressing it once |
| `Presets.SelectPresetOverrides` | app.js:131-138 | after a known key, what earlier presses selected no longer matters |
| `AudioGraph.RouteIsSimple` | app.js:72-78 | the equalized route visits no node twice |
| `AudioGraph.ActiveGraphShape` | app.js:72-78 | the equalized graph is one chain: source into filter 0, filter i into filter i+1, the last filter into the master gain, the master gain into the output; it has 12 edges for 10 filters; no node feeds two nodes; there is no direct source-to-output edge |
| `AudioGraph.BypassGraphShape` | app.js:67-69 | in bypass mode the graph is the single edge from source to output |
| `EqualizerApp.ControlShowingMeaning` | app.js:143-145 | the control set to a gain reads back as that gain, and distinct gains give distinct controls |
| `EqualizerApp.AsWrittenAgreesIffFlat` | app.js:44-53 | filters created as written (gain 0) equal filters created from the gains if and only if every gain is 0 |
| `EqualizerApp.NewRow` | app.js:3 | `Array(10).fill(0)` and the table's row literals are fresh arrays holding exactly the given entries |
| `EqualizerApp.NewPresetTable` | app.js:2-6 | the preset table has the keys flat, rock and bass, each row a fresh array holding that preset's gains |
| `EqualizerApp.CopyRow` | app.js:136 | `[...row]` is a fresh array with the same entries as the row |
| `EqualizerApp.WireChain` | app.js:72-78 | the loop that advances `currentNode` through the filters, followed by the two final connections, makes exactly the edges of the equalized route |
| `EqualizerApp.Equalizer.Load` | app.js:8-18 | the page starts with all-zero gains, preset "flat", bypass off, no audio context and no connections; every control shows its band's gain |
| `EqualizerApp.Equalizer.RenderBands` | app.js:85-128 | one control per band, each showing its band's gain |
| `EqualizerApp.Equalizer.OnSliderInput` | app.js:111-118 | a slider edit on band i writes only gains[i] (in place), band i's control and, when filters exist, filter i's gain; the preset table and the preset name are untouched; controls and filters that matched the gains still do |
| `EqualizerApp.Equalizer.InstallPreset` | app.js:131-138 | the gains and preset name become what the key selects; a known key installs a fresh array, an unknown key keeps the same one; the table stays unshared |
| `EqualizerApp.Equalizer.RetuneFilters` | app.js:140-142 | every filter keeps its frequency and takes its band's gain; the number of filters is unchanged |
| `EqualizerApp.Equalizer.ShowGains` | app.js:143-146 | every control shows its band's gain; the number of controls is unchanged |
| `EqualizerApp.Equalizer.ApplyPreset` | app.js:131-146 | the gains and preset name become what the key selects; known keys install a fresh array, so the table is never aliased; an unknown key keeps the same array; afterwards every filter's gain and every control equal the gains; filter frequencies, bypass and the graph are unchanged |
| `EqualizerApp.Equalizer.EnsureAudioContext` | app.js:32-53 | the first call creates the context and ten filters tuned to the current gains (corrected, see Findings); later calls change nothing |
| `EqualizerApp.Equalizer.EnsureAudioContextAsWritten` | app.js:32-53 | the first call creates the context and ten filters with gain 0; later calls change nothing |
| `EqualizerApp.Equalizer.ConnectAudioGraph` | app.js:55-79 | with no context, nothing changes and nothing is connected; otherwise the source exists and the graph is exactly the bypass edge or the equalized chain, depending on the bypass flag |
| `EqualizerApp.Equalizer.OnBypassChange` | app.js:196-201 | the bypass flag becomes the checkbox state and the context exists; existing filters are kept, and on the first call the filters are created at gain 0 as written; gains and preset name are untouched; the graph is rewired to match the new flag |
| `EqualizerApp.Equalizer.OnBypassChangeCorrected` | app.js:196-201 | the same handler with the corrected filter creation: new filters take the current gains, so filters that matched the gains, or did not exist yet, match them afterwards |
| `EqualizerApp.Equalizer.OnPresetClick` | app.js:181-187 | with the context created as written, the preset is applied and every filter and control equals the new gains |
| `EqualizerApp.StaleFilterScenario` | app.js:44-53 | as written: with band 0 moved to 6 dB before any audio exists, creating the context leaves the slider at 6 dB and the filter at 0 dB |
| `EqualizerApp.SyncedFilterScenario` | app.js:44-53 | with the corrected filter creation, the same steps leave both slider and filter at 6 dB |

## Left out

- server.js: a static file server with no logic of its own.
- Web Audio objects: creating the context, source, filters and master gain, `resume`, and the `connect`/`disconnect` calls. The model keeps only which nodes exist and which edges are connected.
- Filter type, Q (1.1) and the master gain's initial value: audio parameters with no behaviour to verify.
- The master-gain slider (app.js:189-194): its dB-to-linear conversion uses floating-point `Math.pow`.
- DOM construction in `renderBands` (elements, class names, slider min/max/step attributes, frequency labels), status texts, and the "Preset: …" text with its upper-casing: user-interface output only.
- File input, object URLs, and the play, pause and ended listeners: browser I/O and events.
- Prototype keys such as "constructor" in `presets[presetKey]`: the table is treated as a finite map over flat, rock and bass.
- `Presets.FormatFrequency`: defined only below 1000 Hz or on multiples of 500 Hz (such as 1500, "1.5kHz"), and only for magnitudes up to 2^52. Other frequencies have longer decimal forms, and beyond 1e21 `String` switches to exponent form ("1e+21kHz"); neither is modelled, and every band meets the restriction.
- `JsNumber.NumberText`: models `String(x)` only for multiples of 0.5 of magnitude at most 2^52, where a double is exact and `String` writes plain decimals. Gains never leave -12..12.
- `JsNumber.ParseDecimal`: models `Number(s)` only on plain decimal literals. It returns `None` for all other text, where JavaScript also accepts whitespace, signs, exponents, hexadecimal and the empty string.
- `EqualizerApp.Equalizer.OnSliderInput`: takes the slider's value as a number that is already in -12..12 and on a 0.5 step. The browser's range input guarantees this before `Number` reads the value.
- Floating point: gains are exact reals. Every value the page uses is a multiple of 0.5, which a double represents exactly.

## Findings

| source | as written | input that shows it | evidently intended | confidence | as-written member | corrected member |
|---|---|---|---|---|---|---|
| app.js:44-53 | `createFilters` sets every new filter's gain to 0. Only a preset button re-syncs the filters afterwards; the bypass, play, file and master-gain handlers do not. | Move band 0's slider to 6 dB before choosing a file, then choose a file, press play or toggle bypass: the slider and label show 6 dB while filter 0 applies 0 dB. | Each filter starts at its band's current gain, `state.gains[i]`, as the sliders show. | medium, not executed | `EqualizerApp.StaleFilterScenario` | `EqualizerApp.Equalizer.EnsureAudioContext` |
