/**
 * Parameters of the signal-conditioning blocks of usrpx_tx_file.py
 * (lines 76-85 and 101). Only the arguments handed to the GNU Radio block
 * factories are modelled; the tap design, the polyphase engine and the
 * Hilbert filter themselves belong to the library.
 */
module FilterDesign {

  /** Number of polyphase sub-filters (line 76). */
  const NumFilters: int := 32

  /** Taps of the Hilbert transformer used for real input (line 101). */
  const HilbertTaps: int := 64

  /** Arguments of `gr.firdes_low_pass(gain, sampling_freq, cutoff, transition)`. */
  datatype LowPass = LowPass(gain: real, sampleRate: real, cutoff: real, transition: real)

  /** Arguments of `gr.pfb_arb_resampler_ccf(rate, taps, filter_size)`. */
  datatype ArbResampler = ArbResampler(ratio: real, taps: LowPass, numFilters: int)

  /** Argument of `gr.hilbert_fc(ntaps)`. */
  datatype Hilbert = Hilbert(ntaps: int)

  /**
   * Lines 76-82: the prototype filter is designed at `NumFilters` times the
   * input rate with gain `NumFilters`, so that every sub-filter has unity
   * gain; its band edges sit just inside the input rate's Nyquist frequency.
   */
  function PrototypeLowPass(rate: real): (f: LowPass)
    ensures f.gain == NumFilters as real
    ensures f.sampleRate == NumFilters as real * rate
    ensures rate != 0.0 ==> f.cutoff / f.sampleRate == 0.99 / (2.0 * NumFilters as real)
    ensures rate != 0.0 ==> f.transition / f.sampleRate == 0.1 / (2.0 * NumFilters as real)
    ensures rate > 0.0 ==> 0.0 < f.transition < f.cutoff < rate / 2.0
  {
    var cutoff := 0.99 * rate / 2.0;
    var transition := 0.1 * rate / 2.0;
    LowPass(NumFilters as real * 1.0, NumFilters as real * rate, cutoff, transition)
  }

  /**
   * Lines 83-85: the resampler realises `ratio` with the prototype taps for
   * `rate`, split into `NumFilters` phases.
   */
  function Resampler(ratio: real, rate: real): (r: ArbResampler)
    ensures r.ratio == ratio && r.numFilters == NumFilters
    ensures r.taps.gain == r.numFilters as real
    ensures r.taps.sampleRate == r.numFilters as real * rate
    ensures r.taps == PrototypeLowPass(rate)
  {
    ArbResampler(ratio, PrototypeLowPass(rate), NumFilters)
  }

  /** The filter parameters for a 1 MS/s input. */
  lemma PrototypeAtOneMegasample()
    ensures PrototypeLowPass(1000000.0).cutoff == 495000.0
    ensures PrototypeLowPass(1000000.0).transition == 50000.0
    ensures PrototypeLowPass(1000000.0).sampleRate == 32000000.0
  {
  }
}
