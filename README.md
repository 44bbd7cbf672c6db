# Biquad design table and Teensy stereo biquad processor

This project models two parts of the Teensy audio repository.

**The design table** (`Filters.dfy`, module `Filters`). `get_filter_coefficients` is the filter-design tool's table of second-order IIR coefficients. It follows the Audio EQ Cookbook formulas for seven shapes: Low-pass, High-pass, Band-pass, Peaking, Low Shelf, High Shelf and Notch.
- Line 21 of `filters.py` evaluates `A = 10**(dBgain/40)` before the name is looked at. Once that yields a positive float, the shape is selected by its exact name, and any other name raises a `ValueError`.
- The raw coefficients are divided by `a0`, and the result is two three-element lists `b` and `a` with `a[0] == 1`.
- The model works over exact reals. The transcendental values (`cos(wc)`, `sin(wc)`, `A = 10^(dBgain/40)` and `sqrt(A)`) are inputs, described by the algebraic facts they satisfy: the Pythagorean identity, `sin(wc) > 0` for a cutoff strictly between 0 and the Nyquist frequency, `Q > 0`, `A > 0`, and `sqrt(A)^2 == A` with `sqrt(A) > 0`.
- What is proved:
  - the error case in both directions;
  - `a[0] == 1`;
  - the numerator symmetries of each shape and their zeros at DC and at the Nyquist frequency;
  - the gains of the peaking and shelving shapes at DC and at Nyquist;
  - the independence of the gain-free shapes from `dBgain`;
  - that the peaking and shelving shapes are the identity at 0 dB.

**The processor** (`Processor.dfy`, module `Processor`). The `AudioProcessor` class of the firmware keeps a cutoff `f`, a quality factor `Q`, a fixed sample rate `fs == 48000`, the derived values `wc` and `alpha`, five coefficients and eight delay registers (four per channel).
- One channel's filter is specified by the recursive function `Filter`, the Direct Form I difference equation over an input stream, with `After` giving the registers left behind.
- `Update` walks both 128-sample blocks in place. Its contract says each block becomes its own channel's filtered samples and each channel's registers become `After` of its own block. The left channel therefore depends only on the left input and left registers, and the same holds for the right.
- The loop body is split into the method `FilterSample`, which handles one sample of both channels; the statements and their order are those of the source.
- The loop's proof follows a ghost trace of register states (`Trace`, `TraceOf`, `TraceIsFilter`, `ChannelStep`).
- `BlocksFormOneStream` and `UpdateTwice` show that successive blocks are filtered as one continuous stream.
- `ChangeParameters` computes the high-pass design, and `HighPassMatchesDesignTable` proves it equals the normalised High-pass branch of the design table.

Block samples are integers. A sample is scaled in by `v * (1/65535)`, and an output is scaled back by truncating `y * 65535` toward zero, as C++'s float-to-integer conversion does. The sine and cosine of the math library are function-valued fields fixed at construction.

## Model

| member | source | states |
|---|---|---|
| Filters.Name | Teensy_Audio/teensy_biquad_USB_serial_pyqt/python_functions/filters.py:24-84 | the seven type names the if/elif chain compares against; ParseName shows that each selects its own shape, so no two shapes share a name |
| Filters.ParseFilterType | Teensy_Audio/teensy_biquad_USB_serial_pyqt/python_functions/filters.py:24-94 | a recognised name is exactly the name of the shape returned; no shape is returned only when no shape has that name |
| Filters.ParseName | Teensy_Audio/teensy_biquad_USB_serial_pyqt/python_functions/filters.py:24-91 | each of the seven names selects its own shape, so every listed name yields a result |
| Filters.Alpha | Teensy_Audio/teensy_biquad_USB_serial_pyqt/python_functions/filters.py:18 | alpha * 2Q equals sin(wc), and alpha is positive when sin(wc) > 0 and Q > 0; the design table and the board's changeParameters both use this one term |
| Filters.ShelfTermsPositive | Teensy_Audio/teensy_biquad_USB_serial_pyqt/python_functions/filters.py:66-81 | (A+1) ± (A-1)cos(wc) is positive for every positive A and every cosine in [-1, 1] |
| Filters.LowShelfBiquad | Teensy_Audio/teensy_biquad_USB_serial_pyqt/python_functions/filters.py:64-71 | the low-shelf denominator a0 is positive for every admissible design |
| Filters.HighShelfBiquad | Teensy_Audio/teensy_biquad_USB_serial_pyqt/python_functions/filters.py:74-81 | the high-shelf denominator a0 is positive for every admissible design |
| Filters.Design | Teensy_Audio/teensy_biquad_USB_serial_pyqt/python_functions/filters.py:12-91 | every branch has a positive a0, so the normalisation never divides by zero |
| Filters.Normalise | Teensy_Audio/teensy_biquad_USB_serial_pyqt/python_functions/filters.py:97-98 | three numerator and three denominator coefficients, a[0] == 1, and each result times a0 gives back the raw coefficient (the transfer function is kept) |
| Filters.GetFilterCoefficients | Teensy_Audio/teensy_biquad_USB_serial_pyqt/python_functions/filters.py:12-100 | ValueError (carrying the given name) if and only if the name is none of the seven; otherwise two 3-element lists with a[0] == 1 |
| Filters.Designed | Teensy_Audio/teensy_biquad_USB_serial_pyqt/python_functions/filters.py:24-100 | the coefficients of a shape are what the table returns for that shape's name |
| Filters.NormalisedResponses | Teensy_Audio/teensy_biquad_USB_serial_pyqt/python_functions/filters.py:97-98 | dividing by a0 keeps the ratio of numerator to denominator response at DC and at Nyquist |
| Filters.LowPassShape | Teensy_Audio/teensy_biquad_USB_serial_pyqt/python_functions/filters.py:24-31 | b0 == b2 and b1 == 2*b0, zero response at Nyquist, unit gain at DC |
| Filters.HighPassShape | Teensy_Audio/teensy_biquad_USB_serial_pyqt/python_functions/filters.py:34-41 | b0 == b2 and b1 == -2*b0, zero response at DC, unit gain at Nyquist |
| Filters.BandPassShape | Teensy_Audio/teensy_biquad_USB_serial_pyqt/python_functions/filters.py:44-51 | b1 == 0, b2 == -b0 with b0 > 0, zeros at DC and at Nyquist |
| Filters.NotchShape | Teensy_Audio/teensy_biquad_USB_serial_pyqt/python_functions/filters.py:84-91 | raw b0 == b2 == 1; normalised b0 == b2 and b1 == a1; unit gain at DC and Nyquist; the numerator vanishes at the cutoff on the unit circle |
| Filters.PeakingShape | Teensy_Audio/teensy_biquad_USB_serial_pyqt/python_functions/filters.py:54-61 | unit gain at DC and at Nyquist whatever the gain |
| Filters.ShelfSums | Teensy_Audio/teensy_biquad_USB_serial_pyqt/python_functions/filters.py:66-81 | the polynomial values at z == ±1 of the shelf numerators and denominators |
| Filters.LowShelfSums | Teensy_Audio/teensy_biquad_USB_serial_pyqt/python_functions/filters.py:64-71 | the raw low-shelf sums give gain A^2 at DC and 1 at Nyquist |
| Filters.HighShelfSums | Teensy_Audio/teensy_biquad_USB_serial_pyqt/python_functions/filters.py:74-81 | the raw high-shelf sums give gain 1 at DC and A^2 at Nyquist |
| Filters.LowShelfShape | Teensy_Audio/teensy_biquad_USB_serial_pyqt/python_functions/filters.py:64-71 | the normalised low shelf has gain A^2 (10^(dBgain/20)) at DC and unit gain at Nyquist |
| Filters.HighShelfShape | Teensy_Audio/teensy_biquad_USB_serial_pyqt/python_functions/filters.py:74-81 | the normalised high shelf has unit gain at DC and gain A^2 at Nyquist |
| Filters.GainIndependent | Teensy_Audio/teensy_biquad_USB_serial_pyqt/python_functions/filters.py:24-91 | low-pass, high-pass, band-pass and notch share the denominator 1+alpha, -2cos(wc), 1-alpha, and their result is the same for any two gains |
| Filters.ZeroDbRaw | Teensy_Audio/teensy_biquad_USB_serial_pyqt/python_functions/filters.py:54-81 | at A == 1 the peaking and shelf branches have raw numerator equal to raw denominator |
| Filters.NumeratorIsDenominator | Teensy_Audio/teensy_biquad_USB_serial_pyqt/python_functions/filters.py:97-98 | equal raw numerator and denominator normalise to b == a |
| Filters.ZeroDbIsIdentity | Teensy_Audio/teensy_biquad_USB_serial_pyqt/python_functions/filters.py:54-98 | at 0 dB the peaking, low-shelf and high-shelf results have b == a, the identity filter |
| Processor.ConversionConstantsReciprocal | Teensy_Audio/teensy_audio_processor_USB/teensy/audio_processor.h:45-48 | the ADC and DAC scale constants multiply to 1 |
| Processor.Output | Teensy_Audio/teensy_audio_processor_USB/teensy/audio_processor.cpp:53-54 | from cleared registers the output is b0 times the input; a unity filter on balanced registers outputs its input |
| Processor.Shift | Teensy_Audio/teensy_audio_processor_USB/teensy/audio_processor.cpp:56-64 | the new input and output enter d0 and d2, the previous d0 and d2 move to d1 and d3, and the oldest values drop out; balanced registers stay balanced when the output equals the input |
| Processor.Filter | Teensy_Audio/teensy_audio_processor_USB/teensy/audio_processor.cpp:47-64 | one output per input sample |
| Processor.After | Teensy_Audio/teensy_audio_processor_USB/teensy/audio_processor.cpp:56-64 | after a non-empty stream d0 holds its last input and d1 the one before it (the old d0 after a single sample) |
| Processor.FilterAppend | Teensy_Audio/teensy_audio_processor_USB/teensy/audio_processor.cpp:47-64 | filtering a concatenation equals filtering the first part and then the second from the registers the first left behind |
| Processor.AfterHoldsLastSamples | Teensy_Audio/teensy_audio_processor_USB/teensy/audio_processor.cpp:56-64 | after a stream, d0/d1 hold its last two inputs and d2/d3 its last two outputs, falling back on the initial registers for short streams |
| Processor.StepFromHistory | Teensy_Audio/teensy_audio_processor_USB/teensy/audio_processor.cpp:53-64 | the n-th output is one step of the difference equation from the registers holding the two previous inputs and outputs |
| Processor.DifferenceEquation | Teensy_Audio/teensy_audio_processor_USB/teensy/audio_processor.cpp:53-54 | every output satisfies y[n] = b0 x[n] + b1 x[n-1] + b2 x[n-2] - a1 y[n-1] - a2 y[n-2], with the history before the stream taken from the registers |
| Processor.UnityPassesThrough | Teensy_Audio/teensy_audio_processor_USB/teensy/audio_processor.cpp:53-64 | coefficients with numerator equal to denominator pass the stream through unchanged from balanced registers, which stay balanced |
| Processor.FromAdc | Teensy_Audio/teensy_audio_processor_USB/teensy/audio_processor.cpp:49-50 | the scaled-in sample multiplied by the DAC constant is the sample again |
| Processor.ToDac | Teensy_Audio/teensy_audio_processor_USB/teensy/audio_processor.cpp:67-68 | the stored sample is the scaled output truncated toward zero: within one below it when non-negative, within one above it when negative |
| Processor.ProcessBlock | Teensy_Audio/teensy_audio_processor_USB/teensy/audio_processor.cpp:47-68 | one block of one channel: as many samples out as in, the first being the difference equation on the first sample and the channel's current registers |
| Processor.BlockAfter | Teensy_Audio/teensy_audio_processor_USB/teensy/audio_processor.cpp:56-64 | after a block, d0 and d1 hold its last two samples scaled in |
| Processor.TruncateTowardZero | Teensy_Audio/teensy_audio_processor_USB/teensy/audio_processor.cpp:67-68 | the float-to-integer conversion rounds toward zero: within one below a non-negative value and within one above a negative value |
| Processor.AdcDacRoundTrip | Teensy_Audio/teensy_audio_processor_USB/teensy/audio_processor.cpp:49-68 | scaling a sample in and back out returns it unchanged |
| Processor.AdcBlockAppend | Teensy_Audio/teensy_audio_processor_USB/teensy/audio_processor.cpp:49-50 | scaling a block in sample by sample distributes over concatenation |
| Processor.DacBlockAppend | Teensy_Audio/teensy_audio_processor_USB/teensy/audio_processor.cpp:67-68 | scaling a block out sample by sample distributes over concatenation |
| Processor.BlocksFormOneStream | Teensy_Audio/teensy_audio_processor_USB/teensy/audio_processor.cpp:47-68 | processing block b1 and then b2 gives the same samples and registers as processing b1 + b2 |
| Processor.UnityBlockUnchanged | Teensy_Audio/teensy_audio_processor_USB/teensy/audio_processor.cpp:47-68 | a unity filter from balanced registers leaves a block unchanged |
| Processor.CoeffsOf | Teensy_Audio/teensy_biquad_USB_serial_pyqt/python_to_uart_pyqt.py:144 | the five numbers sent to the board are b followed by a without its leading 1 |
| Processor.ZeroDbDesignLeavesAudioUnchanged | Teensy_Audio/teensy_biquad_USB_serial_pyqt/python_functions/filters.py:54-81 | the five coefficients a peaking or shelf design at 0 dB sends to the board, applied by ProcessBlock from cleared registers, leave every block unchanged |
| Processor.Cutoff | Teensy_Audio/teensy_audio_processor_USB/teensy/audio_processor.cpp:88 | wc * fs == 2*PI*f, and a cutoff strictly between 0 and fs/2 gives 0 < wc < PI |
| Processor.HighPassCoeffs | Teensy_Audio/teensy_audio_processor_USB/teensy/audio_processor.cpp:87-96 | changeParameters' coefficients have b0 == b2 and b1 == -2*b0, zero gain at DC and unit gain at Nyquist |
| Processor.HighPassMatchesDesignTable | Teensy_Audio/teensy_audio_processor_USB/teensy/audio_processor.cpp:88-95 | for an admissible design, changeParameters' coefficients equal the normalised High-pass branch of the design table (also filters.py:36-41,97-98) |
| Processor.AudioProcessor.Valid | Teensy_Audio/teensy_audio_processor_USB/teensy/audio_processor.cpp:87-96 | the class invariant the constructor and changeParameters establish: wc == 2*PI*f/fs, alpha == sin(wc)/(2Q) and the high-pass coefficients for f and Q, which have b0 == b2 and b1 == -2*b0 |
| Processor.AudioProcessor.constructor | Teensy_Audio/teensy_audio_processor_USB/teensy/audio_processor.h:36-57 | f == 1000 and Q == 0.7, all eight registers zero, and the coefficients are the high-pass design for the defaults at fs == 48000 |
| Processor.AudioProcessor.ChangeParameters | Teensy_Audio/teensy_audio_processor_USB/teensy/audio_processor.cpp:87-96 | afterwards wc == 2*PI*f/fs, alpha == sin(wc)/(2Q) and the coefficients are the high-pass design for f and Q; f, Q and the registers are untouched |
| Processor.AudioProcessor.ChangeFrequency | Teensy_Audio/teensy_audio_processor_USB/teensy/audio_processor.cpp:77-80 | sets f and re-establishes the design for the new f; Q and both channels' registers are unchanged |
| Processor.AudioProcessor.ChangeQ | Teensy_Audio/teensy_audio_processor_USB/teensy/audio_processor.cpp:82-85 | sets Q and re-establishes the design for the new Q; f and both channels' registers are unchanged |
| Processor.AudioProcessor.FilterSample | Teensy_Audio/teensy_audio_processor_USB/teensy/audio_processor.cpp:48-68 | for sample i of each channel: the output is the difference equation on the scaled-in sample and that channel's registers, the registers shift, and only index i of each block is overwritten, with the scaled-out output |
| Processor.AudioProcessor.Update | Teensy_Audio/teensy_audio_processor_USB/teensy/audio_processor.cpp:29-75 | transmits if and only if both blocks are present; without both, neither the registers nor either block that was given changes; the coefficients never change; otherwise each block is replaced by its own channel's filtered samples and each channel's registers are the state after its own block |
| Processor.TraceOf | Teensy_Audio/teensy_audio_processor_USB/teensy/audio_processor.cpp:47-64 | every input stream has a sequence of outputs and register states linked sample by sample by the difference equation and the shift |
| Processor.TraceIsFilter | Teensy_Audio/teensy_audio_processor_USB/teensy/audio_processor.cpp:47-64 | such a sequence is the filter's output, and its last state is the registers after the stream |
| Processor.ChannelStep | Teensy_Audio/teensy_audio_processor_USB/teensy/audio_processor.cpp:47-69 | one iteration writes index i and shifts the registers, keeping the loop's progress: indices below i+1 hold outputs, the rest are untouched |
| Processor.UpdateTwice | Teensy_Audio/teensy_audio_processor_USB/teensy/audio_processor.cpp:47-64 | two successive updates act on each channel as one pass over the concatenated blocks; f, Q, wc, alpha and the coefficients are unchanged, so a valid design stays valid; only the eight registers and the four blocks may change |

## Left out

- The swept-sine identification pipeline (sweep generation, inverse filter, deconvolution, harmonic separation in `Transducers Measurements/.../functions/SynchSweptSine.py`) is outside this model: it is FFT-based floating-point signal processing with no algebraic core that exact real arithmetic could state faithfully.
- PyQt windows, sliders, plotting and `scipy.signal.freqz` responses are left out: they are user interface and library numerics.
- BLE transport, serial I/O and the `exec` of lines read from the serial port are left out: they are I/O, concurrency or dynamic code. Only the payload's content is modelled, as `CoeffsOf`.
- `np.cos`, `np.sin`, `10**(dBgain/40)` and `np.sqrt` are not computed. The design table takes their values as inputs constrained by `Admissible`. The processor takes `sin` and `cos` as functions supplied at construction.
- IEEE float rounding is not modelled: all arithmetic is exact real arithmetic. This includes `Q = 0.7` as a float and the float constant `1.0f/65535`.
- The transfer functions drawn on the unit circle are not modelled. The responses are stated only at DC (z == 1) and Nyquist (z == -1), plus the notch's zero at the cutoff.
- Filters.GetFilterCoefficients: for a known name it requires `Admissible`, i.e. a cutoff strictly between 0 and fs/2 and Q > 0 (an unknown name gives the ValueError for any inputs). These conditions are what make sin(wc) > 0 and alpha > 0, and so a0 > 0 for every shape. For Fc == 0, Fc == fs/2, cutoffs above Nyquist or Q < 0 the source still returns finite coefficients unless a0 vanishes (alpha == -1 for the four gain-free shapes, alpha == -A for Peaking, or a shelf's a0 == 0), in which case the division by a0 gives infinities or NaNs; the model describes none of these inputs. The design tool's logarithmic sliders store int(log10(v) * 100) and read back 10^(value/100) (python_to_uart_pyqt.py:51,58,100-109), so Fc runs from 10^1.30 (about 19.95 Hz) to 10^4.30 (about 19953 Hz) and Q from 0.01 to 100, inside the admissible range at 48 kHz. The model also does not describe what line 21 does for extreme gains, because `A` is an input here: for dBgain/40 above about 308.25 (dBgain above about 12330 dB) `10**(dBgain/40)` raises `OverflowError` before the name is checked, so even an unknown name gives that error and not `ValueError`; below about -12930 dB `A` underflows to 0.0 and `A > 0` fails although dBgain is finite. The design tool's gain slider runs from -30 to 30 dB (python_to_uart_pyqt.py:66-67), far from either limit.
- Processor.AudioProcessor.ChangeParameters: requires Q != 0 and 1 + alpha != 0 (`Designable`). With other values the source divides by zero in float arithmetic, producing infinities or NaNs, which the model does not describe.
- Processor.AudioProcessor.ChangeFrequency: requires `Designable` for the new cutoff, as `ChangeParameters` does.
- Processor.AudioProcessor.ChangeQ: requires `Designable` for the new Q, as `ChangeParameters` does.
- Processor.AudioProcessor.constructor: requires `Designable` for the defaults, because the default design cannot be evaluated without values for sin and cos.
- Processor.AdcDacRoundTrip: holds in exact real arithmetic only. On the device `1.0f/65535` is the float 2^-16 + 2^-32, and for sample 16448 the float product rounds so that scaling back gives 16447.998046875, which truncation stores as 16447.
- Processor.UnityBlockUnchanged: relies on the same exact round trip, so on the device a unity filter can change samples by one step (16448 becoming 16447, for example).
- Processor.ZeroDbDesignLeavesAudioUnchanged: likewise exact-real only; with float arithmetic a 0 dB design can move samples by one step.
- Processor.AudioProcessor.Update: block samples are unbounded integers. The narrowing of the output to the 16-bit sample type, which is undefined in C++ when the value is out of range, is not modelled.
- `receiveWritable`, `transmit` and `release` of the audio library are modelled only as a block being present (a non-null array) or absent (null). The blocks' memory management is left out, including the fact that the early return when the right block is missing never releases the left block.
- Concurrency is not modelled: every call is atomic. In the audio library `update` runs from the audio interrupt, while `changeFrequency` and `changeQ` (audio_processor.cpp:77-96) assign `b0` to `a2` one at a time with no interrupt guard, so on the device one block can be filtered with a mix of old and new coefficients.
- `AUDIO_BLOCK_SAMPLES` comes from the audio library; it is fixed at its default of 128.
- The two-input `AudioStream` base class is not modelled beyond the fact that `Update` receives exactly two blocks, left and right.
