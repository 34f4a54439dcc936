# usrpx_tx_file: rate matching and flow-graph construction

`usrpx_tx_file.py` streams 32-bit samples from a file to a USRP transmitter.
The transmitter can only interpolate by a fixed list of integer factors, so
the `tx_cfile_block` constructor picks one of them, builds an arbitrary-ratio
polyphase resampler that covers the remaining fractional ratio, sets the gain
and centre frequency, and wires the GNU Radio flow graph. Real-valued input
first passes through a 64-tap Hilbert filter. `get_options` checks the command
line before any of this happens.

This Dafny project models that logic:

- `wrappers.dfy` (module `Wrappers`): `Option` and `Result`.
- `rate_matching.dfy` (module `RateMatching`): the ideal factor
  `dac_rate / rate`, the list comprehension and `[-1]` that pick the factor
  (`None` stands for the `IndexError`), a reference definition that scans
  from the end of the list, and the derived output rate and residual
  resampling ratio. Rates are exact `real`s.
- `filter_design.dfy` (module `FilterDesign`): the arguments given to
  `gr.firdes_low_pass`, `gr.pfb_arb_resampler_ccf` and `gr.hilbert_fc`.
- `tx_file.dfy` (module `TxFile`): `get_options` as a function from the
  parsed command line to an `Invocation` or an `Exit(1, reason)`. It also
  holds three classes:
  - `Options`, whose `gain` the constructor mutates in place;
  - `UsrpSink`, the transmitter. It has fixed capabilities, and its
    `acceptsFreq` parameter stands for the hardware's answer to a frequency
    request. It logs every configuration call;
  - `TxCfileBlock`, the top block. Its `Init` method runs lines 41-105 and
    returns the `SystemExit` raised on either failure. Its postconditions
    give the exact device call log and the graph edges on each exit path.

Two consequences of the code are worth stating. First, the factor chosen is
the last usable one in the order the transmitter reports them, not the
largest. The two agree when the list is ascending (`SortedSelectsMaximum`)
and can differ otherwise (`UnsortedSelectsLastNotLargest`). Second, when the
frequency is refused, the interpolation factor and gain have already been
sent to the transmitter. Only the graph is left unconnected.

## Model

| member | source | states |
|---|---|---|
| `RateMatching.FeasibleRates` | gr-utils/src/python/usrpx_tx_file.py:63-64 | the comprehension holds the same set of factors as the list's factors that are at most the ideal factor, and is no longer than the list |
| `RateMatching.FeasibleRatesAppend` | gr-utils/src/python/usrpx_tx_file.py:63-64 | the comprehension keeps list order: filtering `a + b` gives the filtered `a` followed by the filtered `b` |
| `RateMatching.SelectInterp` | gr-utils/src/python/usrpx_tx_file.py:63-68 | selection fails exactly when no listed factor is at most the ideal factor; otherwise the result is a listed factor within the bound |
| `RateMatching.LastFeasibleIndex` | gr-utils/src/python/usrpx_tx_file.py:63-64 | reference definition: the position of a usable factor with no usable factor after it, or none when no factor is usable |
| `RateMatching.SelectIsLastFeasible` | gr-utils/src/python/usrpx_tx_file.py:63-64 | the comprehension-and-`[-1]` selection equals the factor at the last usable position in list order, and fails exactly when the reference finds none |
| `RateMatching.SortedSelectsMaximum` | gr-utils/src/python/usrpx_tx_file.py:62-64 | for an ascending factor list, the chosen factor is at least every usable factor |
| `RateMatching.UnsortedSelectsLastNotLargest` | gr-utils/src/python/usrpx_tx_file.py:63-64 | for factors `[8, 4]` and ideal factor 100 the code picks 4, the last usable factor, not the largest |
| `RateMatching.MatchRate` | gr-utils/src/python/usrpx_tx_file.py:61-71 | the plan exists exactly when selection succeeds; its factor is the selected one, `output_rate * interp == dac_rate` and `rate * resamp_ratio == output_rate` |
| `RateMatching.MatchRateExample` | gr-utils/src/python/usrpx_tx_file.py:61-65 | a 100 MHz DAC, a 1 MS/s file and factors 4..128 select 64 |
| `RateMatching.MatchRateExampleRates` | gr-utils/src/python/usrpx_tx_file.py:61-71 | in that example the output rate is 1.5625 MS/s and the residual ratio 1.5625 |
| `RateMatching.NoFactorUsableExample` | gr-utils/src/python/usrpx_tx_file.py:61-68 | the same rates with factors 256 and 512 only give no plan |
| `RateMatching.ResampRatioAtLeastOne` | gr-utils/src/python/usrpx_tx_file.py:61-71 | with a positive DAC rate and positive factors, a successful match implies a positive input rate and, in exact arithmetic, `resamp_ratio >= 1` |
| `FilterDesign.PrototypeLowPass` | gr-utils/src/python/usrpx_tx_file.py:76-82 | gain 32 and design rate 32 times the input rate; cutoff and transition are fixed fractions (0.99/64, 0.1/64) of the design rate; for a positive rate `0 < transition < cutoff < rate / 2` |
| `FilterDesign.Resampler` | gr-utils/src/python/usrpx_tx_file.py:79-85 | the resampler gets the residual ratio, 32 filters and the prototype taps for the input rate, whose gain equals the filter count |
| `FilterDesign.PrototypeAtOneMegasample` | gr-utils/src/python/usrpx_tx_file.py:76-82 | for 1 MS/s: cutoff 495 kHz, transition 50 kHz, design rate 32 MHz |
| `TxFile.GetOptions` | gr-utils/src/python/usrpx_tx_file.py:134-147 | accepted exactly when there is one positional argument and both frequency and rate are present; every rejection has status 1, with the checks in source order; an accepted invocation carries the file name and the option values unchanged |
| `TxFile.GetOptionsRoundTrip` | gr-utils/src/python/usrpx_tx_file.py:134-147 | every validated invocation is accepted unchanged from the command line that names it |
| `TxFile.Options.constructor` | gr-utils/src/python/usrpx_tx_file.py:132 | the options object holds the validated values, gain possibly absent |
| `TxFile.UsrpSink.constructor` | gr-utils/src/python/usrpx_tx_file.py:51-53 | a transmitter with the given capabilities and no configuration calls yet |
| `TxFile.UsrpSink.SetInterp` | gr-utils/src/python/usrpx_tx_file.py:65 | appends the interpolation call to the device's log |
| `TxFile.UsrpSink.SetGain` | gr-utils/src/python/usrpx_tx_file.py:91 | appends the gain call to the device's log |
| `TxFile.UsrpSink.SetCenterFreq` | gr-utils/src/python/usrpx_tx_file.py:93 | appends the frequency call to the log and returns the hardware's acceptance |
| `TxFile.GainMidpoint` | gr-utils/src/python/usrpx_tx_file.py:88-90 | the default gain is equidistant from both ends of the gain range and lies within it when the range is ordered |
| `TxFile.GainSetting` | gr-utils/src/python/usrpx_tx_file.py:87-91 | a given gain is passed on unchanged; a missing one becomes the midpoint of the gain range, which lies within it when the range is ordered |
| `TxFile.ItemSize` | gr-utils/src/python/usrpx_tx_file.py:43-46 | an input item is one float for real input and two floats for complex input |
| `TxFile.Chain` | gr-utils/src/python/usrpx_tx_file.py:98-105 | the chain starts at the source and ends resampler then sink; it contains the Hilbert filter, right after the source, exactly for real input |
| `TxFile.Links` | gr-utils/src/python/usrpx_tx_file.py:102-105 | `connect` on a chain adds one edge from each block to the next |
| `TxFile.Topologies` | gr-utils/src/python/usrpx_tx_file.py:98-105 | real input gives source→hilbert→resampler→sink; complex input gives source→resampler→sink |
| `TxFile.TxCfileBlock.constructor` | gr-utils/src/python/usrpx_tx_file.py:39 | an empty top block: no blocks and no edges |
| `TxFile.TxCfileBlock.Connect` | gr-utils/src/python/usrpx_tx_file.py:102-105 | the graph gains the chain's edges and nothing else changes |
| `TxFile.TxCfileBlock.Init` | gr-utils/src/python/usrpx_tx_file.py:41-105 | the file source gets the item size, file name and loop flag. With no usable factor: exit 1, no device call, gain option untouched, no resampler or edges. Otherwise the resampler is built and the device log gains interpolation, gain and frequency, in that order, with the midpoint gain stored in the options when none was given. A refused frequency gives exit 1 and no edges; success gives no exit, a 64-tap Hilbert filter for real input, and exactly the chain's edges |

## Left out

- Real-time scheduling (line 41), the status printing (lines 54-56), `tb.run()` and the `KeyboardInterrupt` handling (lines 149-156) are process side effects with no logic.
- The `OptionParser` set-up (lines 108-132) is left out. `CommandLine` stands for its result. The help text and the stderr messages are represented only by the `ExitReason` of each exit.
- The transmitter is not created by the model (lines 51-53). `Init` receives it as a parameter, so the addressing options (`interface`, `mac_addr`, `tx_subdev_spec`) that select it are not modelled. Its `freq_range` is only printed and is not modelled.
- The library blocks are out of scope: the tap design of `gr.firdes_low_pass`, the polyphase resampling engine, the Hilbert filter and the file source's reading and looping. Only the arguments passed to them are recorded.
- Rates are exact reals. Floating-point rounding of `dac_rate / rate` and of the derived rates is not modelled. `ResampRatioAtLeastOne` holds in exact arithmetic only.
- TxFile.TxCfileBlock.Init: requires `rate != 0`, because line 61 would raise an uncaught `ZeroDivisionError`. It also requires a transmitter with a positive DAC clock and positive interpolation factors, because real hardware has both; a zero factor would also divide by zero at line 70. A negative rate is allowed and, with that positive DAC clock, ends in the no-usable-factor exit.
- RateMatching.MatchRate: line 70 is modelled as true division. The file is Python 2, so `dac_rate() / interp` rounds down to a whole number when `dac_rate()` returns an integer. The driver that sets that type is not part of this model. Under that rounding, `output_rate * interp == dac_rate` no longer holds. `ResampRatioAtLeastOne` can then fail too: with a DAC rate of 128000000, a rate of 10666666.5 and factor 12, the rounded output rate 10666666 is below the input rate.
- `except IndexError` at line 66 would also catch an `IndexError` raised inside `set_interp`. The model treats `set_interp` as never failing.
