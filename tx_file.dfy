/**
 * The transmit flow graph of usrpx_tx_file.py: command-line validation
 * (`get_options`, lines 107-147) and the construction of `tx_cfile_block`
 * (lines 36-105), which configures the transmitter and wires
 * file source -> [Hilbert] -> resampler -> sink.
 *
 * The transmitter is an external collaborator. It is modelled by its
 * capabilities and by the log of the configuration calls made on it, so
 * that the order of those calls on every exit path can be stated.
 */
module TxFile {
  import opened Wrappers
  import opened RateMatching
  import opened FilterDesign

  /** `gr.sizeof_float` and `gr.sizeof_gr_complex`, in bytes. */
  const SizeofFloat: int := 4
  const SizeofGrComplex: int := 8

  /** Why the program stops with `SystemExit(1)`. */
  datatype ExitReason =
    | BadArguments      // line 134: not exactly one positional argument
    | MissingFreq       // line 138
    | MissingRate       // line 142
    | NoInterpRate      // line 66: no interpolation factor is usable
    | FreqRejected      // line 94: the transmitter refused the frequency

  datatype Exit = Exit(status: int, reason: ExitReason)

  /** The option values and positional arguments as the option parser left them. */
  datatype CommandLine = CommandLine(
    args: seq<string>,
    freq: Option<real>,
    rate: Option<real>,
    gain: Option<real>,
    loop: bool,
    realInput: bool)

  /** A validated invocation: the frequency and rate are present. */
  datatype Invocation = Invocation(
    realInput: bool,
    loop: bool,
    freq: real,
    rate: real,
    gain: Option<real>,
    inputFilename: string)

  /**
   * Lines 134-147: exactly one positional argument, then the frequency,
   * then the rate must be present; each failed check exits with status 1.
   */
  function GetOptions(cl: CommandLine): (r: Result<Invocation, Exit>)
    ensures r.Success? <==> |cl.args| == 1 && cl.freq.Some? && cl.rate.Some?
    ensures r.Failure? ==> r.error.status == 1
    ensures |cl.args| != 1 ==> r == Failure(Exit(1, BadArguments))
    ensures |cl.args| == 1 && cl.freq.None? ==> r == Failure(Exit(1, MissingFreq))
    ensures |cl.args| == 1 && cl.freq.Some? && cl.rate.None? ==> r == Failure(Exit(1, MissingRate))
    ensures r.Success? ==>
              && r.value.inputFilename == cl.args[0]
              && Some(r.value.freq) == cl.freq && Some(r.value.rate) == cl.rate
              && r.value.gain == cl.gain && r.value.loop == cl.loop && r.value.realInput == cl.realInput
  {
    if |cl.args| != 1 then Failure(Exit(1, BadArguments))
    else if cl.freq.None? then Failure(Exit(1, MissingFreq))
    else if cl.rate.None? then Failure(Exit(1, MissingRate))
    else Success(Invocation(cl.realInput, cl.loop, cl.freq.value, cl.rate.value, cl.gain, cl.args[0]))
  }

  /** The command line that names `inv`'s file and options. */
  function CommandLineOf(inv: Invocation): CommandLine
  {
    CommandLine([inv.inputFilename], Some(inv.freq), Some(inv.rate), inv.gain, inv.loop, inv.realInput)
  }

  /** Every validated invocation is accepted back unchanged from its own command line. */
  lemma GetOptionsRoundTrip(inv: Invocation)
    ensures GetOptions(CommandLineOf(inv)) == Success(inv)
  {
  }

  /** The parsed options; the constructor mutates `gain` in place (line 90). */
  class Options {
    const realInput: bool
    const loop: bool
    const freq: real
    const rate: real
    var gain: Option<real>

    constructor (inv: Invocation)
      ensures realInput == inv.realInput && loop == inv.loop
      ensures freq == inv.freq && rate == inv.rate && gain == inv.gain
    {
      realInput, loop, freq, rate, gain := inv.realInput, inv.loop, inv.freq, inv.rate, inv.gain;
    }
  }

  /** A configuration call made on the transmitter. */
  datatype DeviceCall = Interp(factor: int) | Gain(db: real) | CenterFreq(hz: real)

  /**
   * The transmitter (`generic_usrp_sink_c`): its fixed capabilities, its
   * answer to a frequency request, and the configuration calls made so far.
   */
  class UsrpSink {
    const dacRate: real
    const interpRates: seq<int>
    const gainRange: (real, real)
    /** Whether the hardware accepts a centre frequency (its tuning result). */
    const acceptsFreq: real -> bool
    var calls: seq<DeviceCall>

    /** A real transmitter has a positive DAC clock and positive interpolation factors. */
    predicate Capable()
    {
      dacRate > 0.0 && PositiveFactors(interpRates)
    }

    constructor (dacRate: real, interpRates: seq<int>, gainRange: (real, real), acceptsFreq: real -> bool)
      ensures this.dacRate == dacRate && this.interpRates == interpRates
      ensures this.gainRange == gainRange && this.acceptsFreq == acceptsFreq
      ensures calls == []
    {
      this.dacRate, this.interpRates := dacRate, interpRates;
      this.gainRange, this.acceptsFreq := gainRange, acceptsFreq;
      calls := [];
    }

    method SetInterp(factor: int)
      modifies this
      ensures calls == old(calls) + [Interp(factor)]
    {
      calls := calls + [Interp(factor)];
    }

    method SetGain(db: real)
      modifies this
      ensures calls == old(calls) + [Gain(db)]
    {
      calls := calls + [Gain(db)];
    }

    method SetCenterFreq(hz: real) returns (ok: bool)
      modifies this
      ensures ok == acceptsFreq(hz)
      ensures calls == old(calls) + [CenterFreq(hz)]
    {
      calls := calls + [CenterFreq(hz)];
      ok := acceptsFreq(hz);
    }
  }

  /**
   * Line 90: the gain used when none is given, midway through the
   * transmitter's gain range.
   */
  function GainMidpoint(range: (real, real)): (g: real)
    ensures g - range.0 == range.1 - g
    ensures range.0 <= range.1 ==> range.0 <= g <= range.1
  {
    (range.0 + range.1) / 2.0
  }

  /** Lines 87-91: the gain passed to the transmitter. */
  function GainSetting(given: Option<real>, range: (real, real)): (g: real)
    ensures given.Some? ==> g == given.value
    ensures given.None? ==> g == GainMidpoint(range)
    ensures given.None? && range.0 <= range.1 ==> range.0 <= g <= range.1
  {
    if given.None? then GainMidpoint(range) else given.value
  }

  /** Lines 43-46: bytes per input item, one float per real sample and two per complex one. */
  function ItemSize(realInput: bool): (n: int)
    ensures n == (if realInput then 1 else 2) * SizeofFloat
  {
    if realInput then SizeofFloat else SizeofGrComplex
  }

  /** Arguments of `gr.file_source(itemsize, filename, repeat)`. */
  datatype FileSource = FileSource(itemSize: int, filename: string, repeat: bool)

  /** The blocks of the flow graph. */
  datatype Block = SourceBlock | HilbertBlock | ResamplerBlock | SinkBlock

  datatype Edge = Edge(from: Block, to: Block)

  /** Lines 98-105: the chain handed to `connect`, with the Hilbert filter for real input only. */
  function Chain(realInput: bool): (c: seq<Block>)
    ensures |c| >= 3 && c[0] == SourceBlock
    ensures c[|c| - 2] == ResamplerBlock && c[|c| - 1] == SinkBlock
    ensures HilbertBlock in c <==> realInput
    ensures realInput ==> c[1] == HilbertBlock
  {
    if realInput then [SourceBlock, HilbertBlock, ResamplerBlock, SinkBlock]
    else [SourceBlock, ResamplerBlock, SinkBlock]
  }

  /** `connect(b0, b1, ..., bn)` joins each block to the next one. */
  function Links(chain: seq<Block>): (r: seq<Edge>)
    ensures |r| == if chain == [] then 0 else |chain| - 1
    ensures forall i :: 0 <= i < |r| ==> r[i] == Edge(chain[i], chain[i + 1])
  {
    if |chain| < 2 then []
    else [Edge(chain[0], chain[1])] + Links(chain[1..])
  }

  /** The two topologies of the flow graph. */
  lemma Topologies()
    ensures Links(Chain(true)) ==
            [Edge(SourceBlock, HilbertBlock), Edge(HilbertBlock, ResamplerBlock), Edge(ResamplerBlock, SinkBlock)]
    ensures Links(Chain(false)) == [Edge(SourceBlock, ResamplerBlock), Edge(ResamplerBlock, SinkBlock)]
  {
  }

  /** `tx_cfile_block`: a GNU Radio top block and the blocks it owns. */
  class TxCfileBlock {
    var src: Option<FileSource>
    var u: UsrpSink?
    var resamp: Option<ArbResampler>
    var hilbert: Option<Hilbert>
    var edges: seq<Edge>

    /** Line 39: an empty top block. */
    constructor ()
      ensures src.None? && u == null && resamp.None? && hilbert.None? && edges == []
    {
      src, u, resamp, hilbert, edges := None, null, None, None, [];
    }

    method Connect(chain: seq<Block>)
      modifies this`edges
      ensures edges == old(edges) + Links(chain)
    {
      edges := edges + Links(chain);
    }

    /**
     * Lines 41-105: open the file, choose the interpolation factor, build
     * the resampler, set gain and frequency, then wire the graph. Returns
     * the `SystemExit` raised on either failure.
     */
    method Init(options: Options, inputFilename: string, device: UsrpSink) returns (exit: Option<Exit>)
      requires options.rate != 0.0
      requires device.Capable()
      modifies this, options, device
      ensures src == Some(FileSource(ItemSize(options.realInput), inputFilename, options.loop))
      ensures u == device
      ensures var plan := MatchRate(device.dacRate, options.rate, device.interpRates);
              plan.None? <==> exit == Some(Exit(1, NoInterpRate))
      // no usable factor: nothing is configured and no block is built
      ensures MatchRate(device.dacRate, options.rate, device.interpRates).None? ==>
              && device.calls == old(device.calls) && options.gain == old(options.gain)
              && resamp == old(resamp) && hilbert == old(hilbert) && edges == old(edges)
      // a factor was chosen: interpolation, gain and frequency are set, in that order
      ensures var plan := MatchRate(device.dacRate, options.rate, device.interpRates);
              var gain := GainSetting(old(options.gain), device.gainRange);
              plan.Some? ==>
              && resamp == Some(Resampler(plan.value.resampRatio, options.rate))
              && options.gain == Some(gain)
              && device.calls == old(device.calls) + [Interp(plan.value.interp), Gain(gain), CenterFreq(options.freq)]
      // the frequency was refused: the graph is left unconnected
      ensures MatchRate(device.dacRate, options.rate, device.interpRates).Some? &&
              !device.acceptsFreq(options.freq) ==>
              exit == Some(Exit(1, FreqRejected)) && hilbert == old(hilbert) && edges == old(edges)
      // success: the graph is wired for the kind of input
      ensures MatchRate(device.dacRate, options.rate, device.interpRates).Some? &&
              device.acceptsFreq(options.freq) ==>
              && exit.None?
              && hilbert == (if options.realInput then Some(Hilbert(HilbertTaps)) else old(hilbert))
              && edges == old(edges) + Links(Chain(options.realInput))
    {
      src := Some(FileSource(ItemSize(options.realInput), inputFilename, options.loop));
      u := device;

      var plan := MatchRate(device.dacRate, options.rate, device.interpRates);
      if plan.None? {
        return Some(Exit(1, NoInterpRate));
      }
      device.SetInterp(plan.value.interp);

      resamp := Some(Resampler(plan.value.resampRatio, options.rate));

      if options.gain.None? {
        options.gain := Some(GainMidpoint(device.gainRange));
      }
      device.SetGain(options.gain.value);

      var ok := device.SetCenterFreq(options.freq);
      if !ok {
        return Some(Exit(1, FreqRejected));
      }

      if options.realInput {
        hilbert := Some(Hilbert(HilbertTaps));
      }
      Connect(Chain(options.realInput));
      return None;
    }
  }
}
