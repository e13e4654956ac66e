/**
 * What the spectrum-analyzer panel hands to its plot widget for one
 * acquired frame: the IQ trace converted to the display unit, or, in
 * baseband mode, the two channel spectra and the cross spectrum with every
 * channel whose display toggle is off replaced by an all-NaN series.
 */
module CurveDisplay {
  import opened Wrappers

  /** A sampled series; None stands for a NaN sample. */
  type Series<S> = seq<Option<S>>

  /** datas[1]: one IQ spectrum, or the baseband tuple (spec1, spec2, real(cross), imag(cross)). */
  datatype Payload<S> =
    | IqSpectrum(spectrum: Series<S>)
    | BasebandSpectra(spec1: Series<S>, spec2: Series<S>, crossRe: Series<S>, crossIm: Series<S>)

  /** datas: the frequency axis and the payload. */
  datatype Frame<S> = Frame(freqs: seq<real>, payload: Payload<S>)

  /** One complex sample of the cross spectrum, kept as its real and imaginary parts. */
  datatype CrossSample<S> = CrossSample(re: Option<S>, im: Option<S>)

  /** The per-channel display toggles of baseband mode. */
  datatype Toggles = Toggles(input1: bool, input2: bool, crossAmplitude: bool)

  /** The value last handed to the plot widget. */
  datatype Shown<S> =
    | RawFrame(frame: Frame<S>)
    | IqTrace(freqs: seq<real>, trace: Payload<S>)
    | BasebandTraces(freqs: seq<real>, spec1: Series<S>, spec2: Series<S>, cross: Series<CrossSample<S>>)

  /** The exceptions display_curve can raise on a frame. */
  datatype DisplayError = IndexError | UnpackError | BroadcastError

  /** np.array([np.nan] * n). */
  function NanSeries<S>(n: nat): (r: Series<S>)
    ensures |r| == n
    ensures forall i :: 0 <= i < |r| ==> r[i].None?
  {
    seq(n, _ => None)
  }

  /** A channel as displayed: itself when its toggle is on, all NaN over the frequency axis when off. */
  function Masked<S>(visible: bool, series: Series<S>, n: nat): (r: Series<S>)
    ensures visible ==> r == series
    ensures !visible ==> |r| == n && forall i :: 0 <= i < |r| ==> r[i].None?
  {
    if visible then series else NanSeries(n)
  }

  /** numpy accepts two 1-D operands of equal length, or one of length 1 that it stretches. */
  predicate Broadcastable<S>(a: Series<S>, b: Series<S>) {
    |a| == |b| || |a| == 1 || |b| == 1
  }

  function BroadcastLength<S>(a: Series<S>, b: Series<S>): nat {
    if |a| == |b| then |a| else if |a| == 1 then |b| else |a|
  }

  /** Index into an operand stretched by broadcasting. */
  function Stretched<S>(a: Series<S>, i: nat): nat {
    if |a| == 1 then 0 else i
  }

  /**
   * re + 1j*im for one sample of finite or NaN parts. A NaN imaginary part
   * makes 1j*im equal to nan+nanj, so the real part of the sum is NaN too; a
   * NaN real part only spoils the real part. Samples are abstract, so an
   * infinite imaginary part (for which 1j*inf is nan+infj) is not told apart.
   */
  function ComplexSample<S>(re: Option<S>, im: Option<S>): (c: CrossSample<S>)
    ensures c.im == im
    ensures im.Some? ==> c.re == re
    ensures im.None? ==> c.re.None?
  {
    CrossSample(if im.None? then None else re, im)
  }

  /** cross_r + 1j*cross_i, elementwise with numpy broadcasting; mismatched shapes raise. */
  function CrossSeries<S>(re: Series<S>, im: Series<S>): (r: Result<Series<CrossSample<S>>, DisplayError>)
    ensures r.Ok? <==> Broadcastable(re, im)
    ensures r.Err? ==> r.error == BroadcastError
    ensures r.Ok? ==> |r.value| == BroadcastLength(re, im)
    ensures r.Ok? && |re| == |im| ==>
      forall i :: 0 <= i < |r.value| ==> r.value[i] == Some(ComplexSample(re[i], im[i]))
  {
    if !Broadcastable(re, im) then Err(BroadcastError)
    else
      var n := BroadcastLength(re, im);
      Ok(seq(n, i requires 0 <= i < n => Some(ComplexSample(re[Stretched(re, i)], im[Stretched(im, i)]))))
  }

  /** The real parts of a cross series (NaN where the sample is NaN). */
  function RealParts<S>(c: Series<CrossSample<S>>): (r: Series<S>)
    ensures |r| == |c|
  {
    seq(|c|, i requires 0 <= i < |c| => if c[i].Some? then c[i].value.re else None)
  }

  /** The imaginary parts of a cross series (NaN where the sample is NaN). */
  function ImagParts<S>(c: Series<CrossSample<S>>): (r: Series<S>)
    ensures |r| == |c|
  {
    seq(|c|, i requires 0 <= i < |c| => if c[i].Some? then c[i].value.im else None)
  }

  /** Line 243's datas[1][1] needs a second element: the IQ spectrum must have two samples. */
  predicate SecondEntryExists<S>(frame: Frame<S>) {
    frame.payload.BasebandSpectra? || |frame.payload.spectrum| >= 2
  }

  /**
   * The value display_curve finally hands to the plot widget, or the
   * exception it raises after recording the frame: the IQ payload converted
   * by the module's unit conversion, or the masked baseband traces.
   */
  function Render<S>(frame: Frame<S>, baseband: bool, toggles: Toggles, toUnits: Payload<S> -> Payload<S>)
    : (r: Result<Shown<S>, DisplayError>)
    ensures r.Err? ==> baseband
    ensures r.Ok? ==> !r.value.RawFrame? && (r.value.BasebandTraces? <==> baseband)
  {
    if !baseband then Ok(IqTrace(frame.freqs, toUnits(frame.payload)))
    else match frame.payload
      case IqSpectrum(_) => Err(UnpackError)
      case BasebandSpectra(s1, s2, cr, ci) =>
        var n := |frame.freqs|;
        var spec1 := Masked(toggles.input1, s1, n);
        var spec2 := Masked(toggles.input2, s2, n);
        if !toggles.crossAmplitude then Ok(BasebandTraces(frame.freqs, spec1, spec2, NanSeries(n)))
        else match CrossSeries(cr, ci)
          case Err(e) => Err(e)
          case Ok(cross) => Ok(BasebandTraces(frame.freqs, spec1, spec2, cross))
  }

  // ---------------------------------------------------------------------------
  // Properties

  /**
   * From the cross series of two equal-length parts of finite or NaN samples
   * the imaginary part comes back exactly; the real part comes back wherever
   * the imaginary sample is not NaN, and is NaN where it is.
   */
  lemma CrossPartsRoundTrip<S>(re: Series<S>, im: Series<S>)
    requires |re| == |im|
    ensures CrossSeries(re, im).Ok?
    ensures ImagParts(CrossSeries(re, im).value) == im
    ensures forall i :: 0 <= i < |re| ==>
      RealParts(CrossSeries(re, im).value)[i] == if im[i].None? then None else re[i]
    ensures (forall i :: 0 <= i < |im| ==> im[i].Some?) ==> RealParts(CrossSeries(re, im).value) == re
  {
  }

  /** Rendering fails exactly in baseband mode on an IQ-shaped payload, or on unbroadcastable cross parts that are shown. */
  lemma RenderFailsIff<S>(frame: Frame<S>, baseband: bool, toggles: Toggles, toUnits: Payload<S> -> Payload<S>)
    ensures var r := Render(frame, baseband, toggles, toUnits);
      r.Err? <==> (baseband && (frame.payload.IqSpectrum?
                    || (toggles.crossAmplitude && !Broadcastable(frame.payload.crossRe, frame.payload.crossIm))))
    ensures var r := Render(frame, baseband, toggles, toUnits);
      r.Err? ==> r.error == if frame.payload.IqSpectrum? then UnpackError else BroadcastError
  {
  }

  /**
   * In baseband mode each channel whose toggle is off becomes an all-NaN series
   * as long as the frequency axis; the two channel spectra whose toggle is on
   * are handed on unchanged, and a shown cross channel is the combination of
   * its two parts.
   */
  lemma BasebandMasking<S>(frame: Frame<S>, toggles: Toggles, toUnits: Payload<S> -> Payload<S>)
    requires frame.payload.BasebandSpectra?
    requires toggles.crossAmplitude ==> Broadcastable(frame.payload.crossRe, frame.payload.crossIm)
    ensures Render(frame, true, toggles, toUnits).Ok?
    ensures var v := Render(frame, true, toggles, toUnits).value;
      var p := frame.payload;
      var n := |frame.freqs|;
      v.BasebandTraces? && v.freqs == frame.freqs
      && (toggles.input1 ==> v.spec1 == p.spec1)
      && (!toggles.input1 ==> |v.spec1| == n && forall i :: 0 <= i < n ==> v.spec1[i].None?)
      && (toggles.input2 ==> v.spec2 == p.spec2)
      && (!toggles.input2 ==> |v.spec2| == n && forall i :: 0 <= i < n ==> v.spec2[i].None?)
      && (toggles.crossAmplitude ==> v.cross == CrossSeries(p.crossRe, p.crossIm).value)
      && (toggles.crossAmplitude && |p.crossRe| == |p.crossIm| ==> ImagParts(v.cross) == p.crossIm)
      && (!toggles.crossAmplitude ==> |v.cross| == n && forall i :: 0 <= i < n ==> v.cross[i].None?)
  {
    if toggles.crossAmplitude && |frame.payload.crossRe| == |frame.payload.crossIm| {
      CrossPartsRoundTrip(frame.payload.crossRe, frame.payload.crossIm);
    }
  }

}
