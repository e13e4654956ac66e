/**
 * Run-control buttons of the spectrum-analyzer panel: the texts and the
 * enabled flag shown for the acquisition module's (running_state,
 * current_avg, avg), and the module action a click on each button picks by
 * looking at the button's current text.
 */
module RunButtons {
  import opened Wrappers
  import opened Decimal

  const RunningContinuous: string := "running_continuous"
  const RunningSingle: string := "running_single"

  const RunContinuousText: string := "Run continuous"
  const RunSingleText: string := "Run single"
  const PauseText: string := "Pause"
  const StopText: string := "Stop"

  /** What the two run buttons show. */
  datatype Labels = Labels(continuousText: string, singleText: string, singleEnabled: bool)

  /** The acquisition module's actions the buttons trigger. */
  datatype ModuleAction = Continuous | Pause | Stop | SingleAsync

  /** Python's str.startswith. */
  predicate StartsWith(s: string, prefix: string) {
    |prefix| <= |s| && s[..|prefix|] == prefix
  }

  /** Python's s[:-1]: all but the last character; the empty string stays empty. */
  function DropLast(s: string): (r: string)
    ensures |s| > 0 ==> r + [s[|s| - 1]] == s
    ensures |s| == 0 ==> r == []
  {
    if |s| == 0 then [] else s[..|s| - 1]
  }

  /** The average count suffix: " (n)" while at least one average is in, else empty. */
  function AvgSuffix(currentAvg: int): (r: string)
    ensures |r| > 0 <==> currentAvg > 0
    ensures |r| > 0 ==> |r| >= 4 && r[..2] == " (" && r[|r| - 1] == ')' && AllDigits(r[2..|r| - 1])
  {
    if currentAvg > 0 then " (" + NatToString(currentAvg) + ")" else ""
  }

  /**
   * The button projection. In continuous mode the closing parenthesis of the
   * suffix turns into "+)" once the target number of averages is reached; the
   * slice is taken even when the suffix is empty.
   */
  function ButtonLabels(state: string, currentAvg: int, avg: int): (r: Labels)
    ensures r.singleEnabled <==> state != RunningContinuous
    ensures r.continuousText == RunContinuousText <==> state == RunningSingle || (state != RunningContinuous && currentAvg <= 0)
    ensures r.singleText == RunSingleText <==> state != RunningSingle
  {
    var numberStr := AvgSuffix(currentAvg);
    if state == RunningContinuous then
      var shown := if currentAvg >= avg then DropLast(numberStr) + "+)" else numberStr;
      assert (PauseText + shown)[0] != RunContinuousText[0];
      Labels(PauseText + shown, RunSingleText, false)
    else if state == RunningSingle then
      assert (StopText + numberStr)[0] != RunSingleText[0];
      Labels(RunContinuousText, StopText + numberStr, true)
    else
      Labels(RunContinuousText + numberStr, RunSingleText, true)
  }

  /** The continuous button starts acquisition when it reads "Run continuous...", else pauses it. */
  function ContinuousClickAction(text: string): (a: ModuleAction)
    ensures a == Continuous || a == Pause
    ensures a == Pause <==> !StartsWith(text, RunContinuousText)
  {
    if StartsWith(text, RunContinuousText) then Continuous else Pause
  }

  /** The single button stops acquisition when it reads "Stop...", else starts one acquisition. */
  function SingleClickAction(text: string): (a: ModuleAction)
    ensures a == Stop || a == SingleAsync
    ensures a == Stop <==> StartsWith(text, StopText)
  {
    if StartsWith(text, StopText) then Stop else SingleAsync
  }

  /** An average count read back from a text suffix, and whether it carried the "+". */
  datatype AvgReading = AvgReading(count: nat, complete: bool)

  /** Reads " (n)" or " (n+)" back; anything else, including "" and "+)", is None. */
  function ReadSuffix(s: string): Option<AvgReading> {
    if |s| >= 4 && s[0] == ' ' && s[1] == '(' && s[|s| - 1] == ')' then
      var inner := s[2..|s| - 1];
      var complete := inner[|inner| - 1] == '+';
      var digits := if complete then inner[..|inner| - 1] else inner;
      match ParseDecimal(digits)
      case Some(n) => Some(AvgReading(n, complete))
      case None => None
    else None
  }

  // ---------------------------------------------------------------------------
  // Properties of the projection

  lemma ContinuousStateLabels(currentAvg: int, avg: int)
    ensures var r := ButtonLabels(RunningContinuous, currentAvg, avg);
      !r.singleEnabled && r.singleText == RunSingleText && StartsWith(r.continuousText, PauseText)
  {
  }

  lemma SingleStateLabels(currentAvg: int, avg: int)
    ensures var r := ButtonLabels(RunningSingle, currentAvg, avg);
      r.singleEnabled && StartsWith(r.singleText, StopText) && r.continuousText == RunContinuousText
  {
  }

  lemma OtherStateLabels(state: string, currentAvg: int, avg: int)
    requires state != RunningContinuous && state != RunningSingle
    ensures var r := ButtonLabels(state, currentAvg, avg);
      r.singleEnabled && r.singleText == RunSingleText && StartsWith(r.continuousText, RunContinuousText)
  {
  }

  /** A plain " (digits)" suffix reads back as its number, not marked complete. */
  lemma ReadPlainSuffix(d: string)
    requires |d| > 0 && AllDigits(d)
    ensures ReadSuffix(" (" + d + ")") == Some(AvgReading(DigitsValue(d), false))
  {
  }

  /** A " (digits+)" suffix reads back as its number, marked complete. */
  lemma ReadCompleteSuffix(d: string)
    requires |d| > 0 && AllDigits(d)
    ensures ReadSuffix(" (" + d + "+)") == Some(AvgReading(DigitsValue(d), true))
  {
    var t := " (" + d + "+)";
    var inner := d + "+";
    assert t[2..|t| - 1] == inner;
    assert inner[..|inner| - 1] == d;
  }

  /** The suffix reads back as the average count, with the "+" marker when the slice rule applied. */
  lemma SuffixReadsBack(currentAvg: int, complete: bool)
    requires currentAvg > 0
    ensures var s := AvgSuffix(currentAvg);
      ReadSuffix(if complete then DropLast(s) + "+)" else s) == Some(AvgReading(currentAvg, complete))
  {
    var d := NatToString(currentAvg);
    DigitsValueOfNatToString(currentAvg);
    if complete {
      assert DropLast(AvgSuffix(currentAvg)) + "+)" == " (" + d + "+)";
      ReadCompleteSuffix(d);
    } else {
      ReadPlainSuffix(d);
    }
  }

  /** Without any average in, no count can be read from the suffix. */
  lemma NoAverageNoSuffix(currentAvg: int)
    requires currentAvg <= 0
    ensures ReadSuffix(AvgSuffix(currentAvg)) == None
    ensures ReadSuffix(DropLast(AvgSuffix(currentAvg)) + "+)") == None
  {
  }

  /**
   * The count suffix after each state's prefix reads back as current_avg
   * exactly when current_avg > 0, marked complete only when running
   * continuously with current_avg >= avg.
   */
  lemma LabelsShowAverage(state: string, currentAvg: int, avg: int)
    ensures var r := ButtonLabels(state, currentAvg, avg);
      var expected := if currentAvg > 0
        then Some(AvgReading(currentAvg, state == RunningContinuous && currentAvg >= avg))
        else None;
      if state == RunningContinuous then
        StartsWith(r.continuousText, PauseText) && ReadSuffix(r.continuousText[|PauseText|..]) == expected
      else if state == RunningSingle then
        StartsWith(r.singleText, StopText) && ReadSuffix(r.singleText[|StopText|..]) == expected
      else
        StartsWith(r.continuousText, RunContinuousText)
        && ReadSuffix(r.continuousText[|RunContinuousText|..]) == expected
  {
    var r := ButtonLabels(state, currentAvg, avg);
    var s := AvgSuffix(currentAvg);
    var complete := state == RunningContinuous && currentAvg >= avg;
    var shown := if complete then DropLast(s) + "+)" else s;
    var prefix := if state == RunningContinuous then PauseText
      else if state == RunningSingle then StopText else RunContinuousText;
    var text := if state == RunningSingle then r.singleText else r.continuousText;
    assert text == prefix + shown;
    assert text[..|prefix|] == prefix && text[|prefix|..] == shown;
    if currentAvg > 0 {
      SuffixReadsBack(currentAvg, complete);
    } else {
      NoAverageNoSuffix(currentAvg);
    }
  }

  /** With no average in and the target already met, the sliced suffix leaves "Pause+)". */
  lemma PausePlusWithoutCount(currentAvg: int, avg: int)
    requires currentAvg <= 0 && currentAvg >= avg
    ensures ButtonLabels(RunningContinuous, currentAvg, avg).continuousText == "Pause+)"
  {
  }

  // ---------------------------------------------------------------------------
  // Click dispatch composed with the projection

  /** After a refresh, the continuous button pauses exactly in continuous mode and starts it otherwise. */
  lemma ContinuousClickAfterRefresh(state: string, currentAvg: int, avg: int)
    ensures ContinuousClickAction(ButtonLabels(state, currentAvg, avg).continuousText)
      == if state == RunningContinuous then Pause else Continuous
  {
    var text := ButtonLabels(state, currentAvg, avg).continuousText;
    if state == RunningContinuous {
      assert text[0] == 'P' && RunContinuousText[0] == 'R';
    } else if state == RunningSingle {
      assert text[..|RunContinuousText|] == RunContinuousText;
    } else {
      OtherStateLabels(state, currentAvg, avg);
    }
  }

  /** After a refresh, the single button stops exactly in single mode and starts one run otherwise. */
  lemma SingleClickAfterRefresh(state: string, currentAvg: int, avg: int)
    ensures SingleClickAction(ButtonLabels(state, currentAvg, avg).singleText)
      == if state == RunningSingle then Stop else SingleAsync
  {
    var text := ButtonLabels(state, currentAvg, avg).singleText;
    if state == RunningSingle {
      SingleStateLabels(currentAvg, avg);
    } else {
      assert text == RunSingleText;
      assert text[..|StopText|] != StopText by {
        assert text[..|StopText|][0] == 'R';
      }
    }
  }
}
