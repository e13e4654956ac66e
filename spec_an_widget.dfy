/**
 * The spectrum-analyzer panel and the part of the acquisition module it
 * talks to. The module's status surface (running_state, current_avg, avg,
 * baseband and the three baseband display toggles) is read by the panel;
 * its actions are recorded in an action log. The panel keeps the two run
 * button texts, the single button's enabled flag, the enabled flags of the
 * baseband and IQ attribute panels, the last frame received and the value
 * last handed to its plot widget.
 */
module SpecAnWidgets {
  import opened Wrappers
  import opened Decimal
  import RB = RunButtons
  import opened CurveDisplay

  /** The acquisition module as the panel sees it. */
  class SpecAnModule {
    var runningState: string
    var currentAvg: int
    var avg: int
    var baseband: bool
    var displayInput1Baseband: bool
    var displayInput2Baseband: bool
    var displayCrossAmplitude: bool
    /** The actions called on the module, oldest first. */
    var actions: seq<RB.ModuleAction>

    constructor (runningState: string, currentAvg: int, avg: int, baseband: bool, toggles: Toggles)
      ensures this.runningState == runningState && this.currentAvg == currentAvg && this.avg == avg
      ensures this.baseband == baseband && DisplayToggles() == toggles
      ensures actions == []
    {
      this.runningState := runningState;
      this.currentAvg := currentAvg;
      this.avg := avg;
      this.baseband := baseband;
      displayInput1Baseband := toggles.input1;
      displayInput2Baseband := toggles.input2;
      displayCrossAmplitude := toggles.crossAmplitude;
      actions := [];
    }

    function DisplayToggles(): Toggles
      reads this
    {
      Toggles(displayInput1Baseband, displayInput2Baseband, displayCrossAmplitude)
    }

    /** continuous(): start continuous acquisition. */
    method Continuous()
      modifies this`actions
      ensures actions == old(actions) + [RB.Continuous]
    {
      actions := actions + [RB.Continuous];
    }

    /** pause(): pause continuous acquisition. */
    method Pause()
      modifies this`actions
      ensures actions == old(actions) + [RB.Pause]
    {
      actions := actions + [RB.Pause];
    }

    /** stop(): stop acquisition and restart averaging. */
    method Stop()
      modifies this`actions
      ensures actions == old(actions) + [RB.Stop]
    {
      actions := actions + [RB.Stop];
    }

    /** single_async(): start one acquisition. */
    method SingleAsync()
      modifies this`actions
      ensures actions == old(actions) + [RB.SingleAsync]
    {
      actions := actions + [RB.SingleAsync];
    }
  }

  class SpecAnWidget<S> {
    const specAn: SpecAnModule
    var continuousText: string
    var singleText: string
    var singleEnabled: bool
    var basebandPanelEnabled: bool
    var iqPanelEnabled: bool
    var lastData: Option<Frame<S>>
    var shown: Option<Shown<S>>

    /** What the run buttons currently show. */
    function Buttons(): RB.Labels
      reads this
    {
      RB.Labels(continuousText, singleText, singleEnabled)
    }

    /** The buttons show the projection of the module's current run status. */
    predicate ButtonsInSync()
      reads this, specAn
    {
      Buttons() == RB.ButtonLabels(specAn.runningState, specAn.currentAvg, specAn.avg)
    }

    /** Exactly one of the baseband and IQ attribute panels is enabled, the one matching the mode. */
    predicate PanelsMatchMode()
      reads this, specAn
    {
      basebandPanelEnabled == specAn.baseband && iqPanelEnabled != basebandPanelEnabled
    }

    /** The buttons as created, no frame yet, and the panels set for the module's mode. */
    constructor (specAn: SpecAnModule)
      ensures this.specAn == specAn
      ensures Buttons() == RB.Labels(RB.RunContinuousText, RB.RunSingleText, true)
      ensures PanelsMatchMode()
      ensures lastData == None && shown == None
    {
      this.specAn := specAn;
      continuousText := RB.RunContinuousText;
      singleText := RB.RunSingleText;
      singleEnabled := true;
      lastData := None;
      shown := None;
      new;
      UpdateBasebandVisibility();
    }

    /** Enables the attribute panel of the module's current mode and disables the other. */
    method UpdateBasebandVisibility()
      modifies this`basebandPanelEnabled, this`iqPanelEnabled
      ensures PanelsMatchMode()
      ensures iqPanelEnabled == !specAn.baseband
    {
      basebandPanelEnabled := specAn.baseband;
      iqPanelEnabled := !specAn.baseband;
    }

    /** Recomputes the run button texts and the single button's enabled flag. */
    method UpdateRunningButtons()
      modifies this`continuousText, this`singleText, this`singleEnabled
      ensures ButtonsInSync()
    {
      var numberStr: string;
      if specAn.currentAvg > 0 {
        numberStr := " (" + NatToString(specAn.currentAvg) + ")";
      } else {
        numberStr := "";
      }
      if specAn.runningState == RB.RunningContinuous {
        if specAn.currentAvg >= specAn.avg {
          numberStr := RB.DropLast(numberStr) + "+)";
        }
        continuousText := RB.PauseText + numberStr;
        singleText := RB.RunSingleText;
        singleEnabled := false;
      } else {
        if specAn.runningState == RB.RunningSingle {
          continuousText := RB.RunContinuousText;
          singleText := RB.StopText + numberStr;
          singleEnabled := true;
        } else {
          continuousText := RB.RunContinuousText + numberStr;
          singleText := RB.RunSingleText;
          singleEnabled := true;
        }
      }
    }

    /**
     * Reacts to a change of one module attribute: running_state refreshes the
     * run buttons, baseband the attribute panels; other names touch neither.
     */
    method UpdateAttributeByName(name: string)
      modifies this`continuousText, this`singleText, this`singleEnabled
      modifies this`basebandPanelEnabled, this`iqPanelEnabled
      ensures name == "running_state" ==> ButtonsInSync()
      ensures name != "running_state" ==> Buttons() == old(Buttons())
      ensures name == "baseband" ==> PanelsMatchMode()
      ensures name != "baseband" ==>
        basebandPanelEnabled == old(basebandPanelEnabled) && iqPanelEnabled == old(iqPanelEnabled)
    {
      if name == "running_state" {
        UpdateRunningButtons();
      }
      if name == "baseband" {
        UpdateBasebandVisibility();
      }
    }

    /**
     * A click on the continuous button calls exactly one module action, chosen
     * by the button's text; with the buttons in sync that is pause() exactly
     * when the module runs continuously.
     */
    method RunContinuousClicked()
      modifies specAn`actions
      ensures specAn.actions == old(specAn.actions) + [RB.ContinuousClickAction(continuousText)]
      ensures old(ButtonsInSync()) ==>
        specAn.actions == old(specAn.actions)
          + [if specAn.runningState == RB.RunningContinuous then RB.Pause else RB.Continuous]
    {
      RB.ContinuousClickAfterRefresh(specAn.runningState, specAn.currentAvg, specAn.avg);
      if RB.StartsWith(continuousText, RB.RunContinuousText) {
        specAn.Continuous();
      } else {
        specAn.Pause();
      }
    }

    /**
     * A click on the single button calls exactly one module action, chosen by
     * the button's text; with the buttons in sync that is stop() exactly when
     * the module runs a single acquisition.
     */
    method RunSingleClicked()
      modifies specAn`actions
      ensures specAn.actions == old(specAn.actions) + [RB.SingleClickAction(singleText)]
      ensures old(ButtonsInSync()) ==>
        specAn.actions == old(specAn.actions)
          + [if specAn.runningState == RB.RunningSingle then RB.Stop else RB.SingleAsync]
    {
      RB.SingleClickAfterRefresh(specAn.runningState, specAn.currentAvg, specAn.avg);
      if RB.StartsWith(singleText, RB.StopText) {
        specAn.Stop();
      } else {
        specAn.SingleAsync();
      }
    }

    /**
     * Shows a frame. None is ignored. A frame whose IQ spectrum has fewer than
     * two samples raises before anything changes. Otherwise the raw frame is
     * handed to the plot widget and recorded as the last frame (unmasked),
     * and then replaced in the plot widget by the rendered traces, unless
     * rendering raises.
     */
    method DisplayCurve(datas: Option<Frame<S>>, toUnits: Payload<S> -> Payload<S>) returns (err: Option<DisplayError>)
      modifies this`lastData, this`shown
      ensures datas.None? ==> err == None && lastData == old(lastData) && shown == old(shown)
      ensures datas.Some? && !SecondEntryExists(datas.value) ==>
        err == Some(IndexError) && lastData == old(lastData) && shown == old(shown)
      ensures datas.Some? && SecondEntryExists(datas.value) ==>
        lastData == datas
        && match Render(datas.value, specAn.baseband, specAn.DisplayToggles(), toUnits)
           case Ok(v) => err == None && shown == Some(v)
           case Err(e) => err == Some(e) && shown == Some(RawFrame(datas.value))
    {
      if datas.None? {
        return None;
      }
      var frame := datas.value;
      if frame.payload.IqSpectrum? && |frame.payload.spectrum| < 2 {
        return Some(IndexError);
      }
      shown := Some(RawFrame(frame));
      lastData := datas;
      var freqs := frame.freqs;
      if !specAn.baseband {
        shown := Some(IqTrace(freqs, toUnits(frame.payload)));
        return None;
      }
      if frame.payload.IqSpectrum? {
        return Some(UnpackError);
      }
      var spec1, spec2, crossRe, crossIm :=
        frame.payload.spec1, frame.payload.spec2, frame.payload.crossRe, frame.payload.crossIm;
      if !specAn.displayInput1Baseband {
        spec1 := NanSeries(|freqs|);
      }
      if !specAn.displayInput2Baseband {
        spec2 := NanSeries(|freqs|);
      }
      var cross: Series<CrossSample<S>>;
      if !specAn.displayCrossAmplitude {
        cross := NanSeries(|freqs|);
      } else {
        var combined := CrossSeries(crossRe, crossIm);
        if combined.Err? {
          return Some(combined.error);
        }
        cross := combined.value;
      }
      shown := Some(BasebandTraces(freqs, spec1, spec2, cross));
      err := None;
    }
  }
}
