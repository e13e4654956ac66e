# Spectrum-analyzer panel: run control and display selection

This project models the run-control and display-selection logic of pyrpl's
spectrum-analyzer panel (`SpecAnWidget`). The panel mirrors the acquisition
module's status in two run buttons and two attribute panels, and it hands
acquired frames to its plot widget. The model covers:

- **Button projection** (`RunButtons.ButtonLabels`). This is a pure function
  from (`running_state`, `current_avg`, `avg`) to the continuous-button text,
  the single-button text and the single button's enabled flag. It adds the
  ` (n)` average suffix and turns it into ` (n+)` in continuous mode once
  `current_avg >= avg`. It reproduces the `number_str[:-1] + '+)'` slice
  exactly, so an empty suffix gives `"Pause+)"`. The suffix is written with a
  model of Python's `str()` (`Decimal.NatToString`). It is read back with a
  parser (`RunButtons.ReadSuffix`, `Decimal.ParseDecimal`), and the lemmas
  prove that the count can be recovered from the label.
- **Click dispatch** (`RunButtons.ContinuousClickAction`,
  `RunButtons.SingleClickAction`). Each handler picks the module action by
  the prefix of its button's current text. Lemmas compose these handlers with
  the projection to give the panel's state machine.
- **Panel state** (`SpecAnWidgets.SpecAnWidget`). This class holds the two
  button texts, the single button's enabled flag, the two attribute-panel enabled flags,
  `last_data` and the value last handed to the plot widget. It refers to the
  acquisition module (`SpecAnWidgets.SpecAnModule`), which holds the status
  fields the panel reads and a log of the actions called on it
  (`continuous()`, `pause()`, `stop()`, `single_async()`).
- **Frame display** (`CurveDisplay.Render`, `SpecAnWidget.DisplayCurve`).
  A NaN sample is `None` in a `seq<Option<S>>` with an abstract sample type
  `S`. A channel whose baseband display toggle is off becomes an all-NaN
  series as long as the frequency axis. The cross spectrum
  `cross_r + 1j*cross_i` is kept as the pair of its parts, sample by sample,
  under numpy's 1-D broadcasting rule. A NaN imaginary part makes the whole
  sample NaN, and a NaN real part makes only the real part NaN. The raw frame
  recorded in `last_data` is never masked.

The module's unit conversion (`data_to_display_unit` with the current
resolution bandwidth) is a function parameter `toUnits` of `DisplayCurve`.

Three behaviours of the code shape the model:

- Every `running_state` string other than `running_continuous` and
  `running_single` is treated alike.
- A malformed frame raises; it is not skipped (`CurveDisplay.DisplayError`).
  - An IQ spectrum with fewer than two samples raises an index error at
    line 243, before any state changes.
  - A baseband-mode frame with an IQ-shaped payload raises when it is
    unpacked at line 253, after `last_data` and the raw plot value are set.
  - Cross parts that cannot be broadcast raise at line 261, also after those
    two are set.
- The buttons match the projection only right after
  `update_running_buttons`. The click properties are therefore stated under
  `ButtonsInSync()`.

## Model

| member | source | states |
|---|---|---|
| `Decimal.NatToString` | pyrpl/widgets/module_widgets/spec_an_widget.py:186 | `str(current_avg)` for a positive count is a non-empty run of decimal digits with no leading zero, a single digit exactly below 10 |
| `Decimal.DecimalRoundTrip` | pyrpl/widgets/module_widgets/spec_an_widget.py:186 | the count written into the label is read back as the same number |
| `RunButtons.DropLast` | pyrpl/widgets/module_widgets/spec_an_widget.py:192 | `number_str[:-1]` removes only the last character, and an empty string stays empty |
| `RunButtons.ContinuousStateLabels` | pyrpl/widgets/module_widgets/spec_an_widget.py:189-195 | in `running_continuous` the single button is disabled and reads exactly "Run single"; the continuous button starts with "Pause" |
| `RunButtons.SingleStateLabels` | pyrpl/widgets/module_widgets/spec_an_widget.py:197-200 | in `running_single` the single button is enabled and starts with "Stop"; the continuous button reads exactly "Run continuous" |
| `RunButtons.OtherStateLabels` | pyrpl/widgets/module_widgets/spec_an_widget.py:201-204 | in any other state the single button is enabled and reads "Run single"; the continuous button starts with "Run continuous" |
| `RunButtons.SuffixReadsBack` | pyrpl/widgets/module_widgets/spec_an_widget.py:185-192 | for `current_avg > 0` the suffix reads back as `current_avg`; the "+" marker is present exactly when the slice rule applied |
| `RunButtons.NoAverageNoSuffix` | pyrpl/widgets/module_widgets/spec_an_widget.py:185-192 | for `current_avg <= 0` no count can be read from the suffix, with or without the slice rule |
| `RunButtons.LabelsShowAverage` | pyrpl/widgets/module_widgets/spec_an_widget.py:185-204 | in every state, the text after the state's prefix reads back as `current_avg` iff `current_avg > 0`; it is marked complete iff running continuously with `current_avg >= avg` |
| `RunButtons.PausePlusWithoutCount` | pyrpl/widgets/module_widgets/spec_an_widget.py:185-193 | with `current_avg <= 0` and `current_avg >= avg`, the continuous button reads exactly "Pause+)" |
| `RunButtons.ContinuousClickAction` | pyrpl/widgets/module_widgets/spec_an_widget.py:227-230 | a continuous-button click calls exactly one of `continuous()` and `pause()`: `pause()` iff the text does not start with "Run continuous" |
| `RunButtons.SingleClickAction` | pyrpl/widgets/module_widgets/spec_an_widget.py:233-236 | a single-button click calls exactly one of `stop()` and `single_async()`: `stop()` iff the text starts with "Stop" |
| `RunButtons.ContinuousClickAfterRefresh` | pyrpl/widgets/module_widgets/spec_an_widget.py:189-230 | after the labels are recomputed, a continuous click calls `pause()` iff the state is `running_continuous`, else `continuous()` |
| `RunButtons.SingleClickAfterRefresh` | pyrpl/widgets/module_widgets/spec_an_widget.py:197-236 | after the labels are recomputed, a single click calls `stop()` iff the state is `running_single`, else `single_async()` |
| `CurveDisplay.NanSeries` | pyrpl/widgets/module_widgets/spec_an_widget.py:255-259 | `np.array([np.nan]*len(x))` has length `len(x)`, and every sample is NaN |
| `CurveDisplay.CrossSeries` | pyrpl/widgets/module_widgets/spec_an_widget.py:261 | `cross_r + 1j*cross_i` succeeds iff the parts broadcast and has the broadcast length; equal-length parts combine index by index; for finite or NaN samples a NaN imaginary part spoils both parts of its sample |
| `CurveDisplay.CrossPartsRoundTrip` | pyrpl/widgets/module_widgets/spec_an_widget.py:261 | for finite or NaN samples, from the cross series of equal-length parts the imaginary part comes back exactly; the real part comes back where the imaginary sample is not NaN and is NaN where it is |
| `CurveDisplay.RenderFailsIff` | pyrpl/widgets/module_widgets/spec_an_widget.py:250-263 | rendering raises iff in baseband mode the payload is IQ-shaped (unpack error) or the cross channel is shown and its parts do not broadcast |
| `CurveDisplay.BasebandMasking` | pyrpl/widgets/module_widgets/spec_an_widget.py:252-264 | for every baseband frame that renders, each channel with its toggle off is all NaN over `len(freqs)`; the two spectra with their toggle on are handed on unchanged, and a shown cross channel is the combination of its parts |
| `RunButtons.AvgSuffix` | pyrpl/widgets/module_widgets/spec_an_widget.py:185-188 | the count suffix is non-empty iff `current_avg > 0`, and then has the shape " (digits)" |
| `RunButtons.ButtonLabels` | pyrpl/widgets/module_widgets/spec_an_widget.py:180-204 | the single button is enabled iff the state is not `running_continuous`; it reads "Run single" iff the state is not `running_single`; the continuous button reads exactly "Run continuous" iff the state is `running_single`, or another non-continuous state with no average in |
| `CurveDisplay.Masked` | pyrpl/widgets/module_widgets/spec_an_widget.py:254-259 | a channel with its toggle on is itself; with its toggle off it is all NaN with the frequency axis's length |
| `CurveDisplay.ComplexSample` | pyrpl/widgets/module_widgets/spec_an_widget.py:261 | for finite or NaN parts, one sample of `re + 1j*im` keeps the imaginary part; it keeps the real part unless the imaginary part is NaN, which makes the real part NaN |
| `CurveDisplay.Render` | pyrpl/widgets/module_widgets/spec_an_widget.py:250-264 | only baseband mode can raise; a rendered value is never the raw frame and is the baseband traces iff the module is in baseband mode |
| `SpecAnWidgets.SpecAnModule.Continuous` | pyrpl/widgets/module_widgets/spec_an_widget.py:228 | `continuous()` appends exactly that action to the module's action log and changes nothing else |
| `SpecAnWidgets.SpecAnModule.Pause` | pyrpl/widgets/module_widgets/spec_an_widget.py:230 | `pause()` appends exactly that action to the module's action log and changes nothing else |
| `SpecAnWidgets.SpecAnModule.Stop` | pyrpl/widgets/module_widgets/spec_an_widget.py:234 | `stop()` appends exactly that action to the module's action log and changes nothing else |
| `SpecAnWidgets.SpecAnModule.SingleAsync` | pyrpl/widgets/module_widgets/spec_an_widget.py:236 | `single_async()` appends exactly that action to the module's action log and changes nothing else |
| `SpecAnWidgets.SpecAnWidget.constructor` | pyrpl/widgets/module_widgets/spec_an_widget.py:96-167 | a new panel shows "Run continuous" and an enabled "Run single", has no last frame, and enables only the attribute panel of the module's mode |
| `SpecAnWidgets.SpecAnWidget.UpdateBasebandVisibility` | pyrpl/widgets/module_widgets/spec_an_widget.py:176-178 | exactly one attribute panel is enabled; the baseband panel is enabled iff `module.baseband` |
| `SpecAnWidgets.SpecAnWidget.UpdateRunningButtons` | pyrpl/widgets/module_widgets/spec_an_widget.py:180-204 | the buttons end up showing the projection of the module's (`running_state`, `current_avg`, `avg`) |
| `SpecAnWidgets.SpecAnWidget.UpdateAttributeByName` | pyrpl/widgets/module_widgets/spec_an_widget.py:169-174 | `running_state` refreshes the buttons and `baseband` refreshes the panels; any other name leaves both unchanged |
| `SpecAnWidgets.SpecAnWidget.RunContinuousClicked` | pyrpl/widgets/module_widgets/spec_an_widget.py:222-230 | appends exactly one action chosen by the button text; with the buttons in sync, `pause()` iff the module runs continuously |
| `SpecAnWidgets.SpecAnWidget.RunSingleClicked` | pyrpl/widgets/module_widgets/spec_an_widget.py:232-236 | appends exactly one action chosen by the button text; with the buttons in sync, `stop()` iff the module runs a single acquisition |
| `SpecAnWidgets.SpecAnWidget.DisplayCurve` | pyrpl/widgets/module_widgets/spec_an_widget.py:238-264 | `None` changes nothing; a too-short IQ spectrum raises before any change; otherwise `last_data` becomes the unmasked frame and the plot widget gets the rendered traces, or keeps the raw frame when rendering raises |

## Left out

- The base-class part of `update_attribute_by_name` (`ModuleWidget.update_attribute_by_name`, which refreshes the attribute's own widget) is not part of this model. Only the routing to the two refresh methods is modelled.
- Qt layout classes (`BasebandAttributesWidget`, `IqModeAttributesWidget`, `OtherAttributesWidget`) and the widget wiring of `init_gui` are GUI toolkit calls. The constructor keeps only the initial button texts, `last_data = None` and the initial panel refresh.
- `autoscale_x`, `unit_changed` and `display_curve_old` are left out. They are plot-range calls on the plotting library, and the old display method refers to curve objects that no longer exist.
- The effects of the module actions `continuous()`, `pause()`, `stop()` and `single_async()` belong to the acquisition module, which is not part of this model. They are recorded only in the module's action log.
- Unit conversion is an opaque function parameter. In baseband mode the conversion is handed to the plot widget as `transform_magnitude`, and the model does not record it.
- The `arr` built at line 243 and the plot widget's own processing are numeric code. Only the index error that line 243 raises on a too-short IQ spectrum is modelled.
- ComplexSample: samples are abstract, so infinities are not told apart from finite samples. NumPy computes `1j*inf` as `nan+infj`, so an infinite imaginary part makes the real part of the cross sample NaN; the model keeps the real part there.
- CrossPartsRoundTrip: for the same reason, its promise that the real part comes back wherever the imaginary sample is not NaN holds only for finite imaginary samples in the source.
- DisplayCurve: NumPy versions that refuse to build the ragged array at line 243 are not modelled.
- DisplayCurve: a baseband-mode frame whose IQ-shaped payload has exactly four samples would unpack into four scalars in Python. The model treats every IQ-shaped payload in baseband mode as an unpack error.
- The Qt signal machinery that decides when the handlers run, and the 25 Hz display rate limit, are event plumbing outside the model.
- The lockbox model files (`interferometer.py`, `custom_lockbox_example.py`) are left out. They hold floating-point formulas and delegate to a sweep/lock engine that is not part of this model.
