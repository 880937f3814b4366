# StreamTestBench core in Dafny

StreamTestBench is a signal test bench. Python objects pass fixed-length sample
streams between processing blocks. A producer writes a stream and calls its
`update_listeners`. Every subscribed block then runs its `process` and notifies
the listeners of its own result stream. The change ripples synchronously, depth
first, through the whole signal chain.

This project models the core of that bench and proves properties of the model:

- the change-notification protocol: `Listener`, `Stream`, `Streams`, `Parameter`
  and `Block`;
- the recursive cascade those callbacks form;
- the elementwise math blocks;
- the two first-order IIR filters;
- the delta-sigma modulators;
- the waveform and pulse generators;
- the `Shift`, `Cast` and `ThreePoleIIR` blocks of the multipole example.

Samples are Dafny `real`s, an idealisation of float64 arithmetic built only
from `+`, `-`, `*` and `/`. Every sample buffer is an `array<real>`, because
the source sometimes makes two streams share one buffer (the samples setter
stores the array it is given). Where the modelled code raises, the model
returns a `Result` value (`Base.Err(ValueError(...))`, `Err(IndexError)`,
`Err(ZeroDivisionError)` or `Err(OverflowError)`) instead of asking the caller
to avoid the case. The preconditions that remain either restate an invariant
of the objects (`Valid()`, a well-formed wiring) or stand for a case in which
the source does not raise but the model cannot follow, such as numpy's
division by zero; "## Left out" names each of the latter.

Modules, one per source file:

- `Base`: the error and result types and buffer helpers.
- `StreamCore` (core/stream.py): the listener loop `Dispatch`, and the
  `Stream` and `Streams` classes. A stored callback is modelled as the listener
  object. `Dispatch` returns the list of calls made, each with the argument
  passed (`null` stands for `None`).
- `Parameters` (gui/parameters.py): the `Parameter` class and the slider
  default.
- `BlockCore` (core/block.py): a block's initial state. `BlockCore.Block`
  records only the defaults block.py sets: the name, no result stream and no
  test points. Processing and notification are in `Propagation`.
- `Propagation` (core/block.py with core/stream.py): `Block.listener_update`
  and the cascade it starts. The bench is a table of nodes: streams and
  parameters, `Streams` groups, and blocks with their result stream. The
  function `Handle` gives the ordered trace of `listener_update` calls that
  one notification causes, and whether it ended in an exception. Nothing on
  the way catches one, so a process that raises ends the whole cascade
  (block.py:73-74, stream.py:35-36). Whether a block's process raises is a
  flag of the block. The methods of class `Network` (the loop of
  `update_listeners`, and `listener_update`) are proved to produce exactly that
  trace and outcome. A rank that strictly decreases along every subscription stands for
  the acyclic wiring the source needs: a cycle would recurse until Python's
  recursion limit.
- `MathBlocks` (blocks/math.py), `Filters` (blocks/filters.py), `Dsm`
  (blocks/dsm.py), `Waveform` (core/waveform.py) and `Multipole`
  (examples/multipole.py).

Each loop of the modulators and filters is an imperative method. It is proved
to leave its buffers equal to a recurrence function over the input. The
lemmas are about those functions: output levels, stability, bounds, round
trips, pulse areas and cascade reachability.

Details of the source's behaviour the model keeps:

- `IntegerIIR` seeds its running value with 0.001 and writes it to output index 0
  (blocks/filters.py:25-27).
- `generate` never adds the generator's offset (core/waveform.py:74, 163).
- The FirstOrder block integrates with the factor 0.5 (blocks/dsm.py:61).
- `full_scale` is 1.0 for a bit count of 0 or less and 2**(bit_count - 1)
  otherwise (core/stream.py:181-186).

The model also makes visible that `FirstOrder.process` resets and rebuilds
its test-point group on every run. Each rebuild appends the group to the input
stream's listener list again (`Dsm.FirstOrder.Process` states this). The
input's listener list therefore grows by one entry per run.

## Model

| member | source | states |
|---|---|---|
| StreamCore.Dispatch | src/StreamTestBench/core/stream.py:33-38 | the listener loop makes exactly one call per registered listener, in subscription order, each receiving obj |
| StreamCore.FullScale | src/StreamTestBench/core/stream.py:175-186 | full scale is at least 1, and exactly 1.0 for a bit count of 1 or less |
| StreamCore.FullScaleDoubles | src/StreamTestBench/core/stream.py:181-186 | for integer streams each extra bit doubles full scale (2^(bits-1)) |
| StreamCore.Stream.constructor | src/StreamTestBench/core/stream.py:53-70 | the metadata are stored unchanged, and the buffer is a fresh array of N zeros with no listeners |
| StreamCore.Stream.New | src/StreamTestBench/core/stream.py:53-70 | construction raises ValueError when osr < 2, then ZeroDivisionError when dt is 0 (np.arange with a zero step), then ValueError when N < 0 (np.zeros of a negative length); every other input gives a stream that keeps the metadata unchanged and holds N zeros |
| StreamCore.Stream.AddListener | src/StreamTestBench/core/stream.py:28-31 | the listener is appended at the end, with no duplicate check |
| StreamCore.Stream.UpdateListeners | src/StreamTestBench/core/stream.py:72-89 | a non-None argument raises before any listener runs; otherwise every listener, in order, receives the stream itself |
| StreamCore.Stream.Copy | src/StreamTestBench/core/stream.py:94-108 | the copy is a distinct fresh stream with the new name, the same dt, N, osr and bit depth, a zero buffer and no listeners |
| StreamCore.Stream.SetSamples | src/StreamTestBench/core/stream.py:134-141 | a buffer of the wrong length raises ValueError and keeps the old buffer; otherwise the stream refers to the given array itself, so length N always holds |
| StreamCore.Streams.constructor | src/StreamTestBench/core/stream.py:198-204 | a new group has its name, no members and no listeners |
| StreamCore.Streams.AddListener | src/StreamTestBench/core/stream.py:28-31 | the listener is appended to the group's callbacks |
| StreamCore.Streams.Append | src/StreamTestBench/core/stream.py:222-226 | the member is appended, and the group is appended to that member's listeners |
| StreamCore.Streams.Reset | src/StreamTestBench/core/stream.py:218-220 | the member list becomes empty; no listener list is touched, so the group stays subscribed to former members |
| StreamCore.Streams.ListenerUpdate | src/StreamTestBench/core/stream.py:212-216 | a member's notification makes every listener of the group, in order, receive the group |
| Parameters.Parameter.constructor | src/StreamTestBench/gui/parameters.py:18-23 | the parameter holds the given name and value (default 1) and no listeners |
| Parameters.Parameter.AddListener | src/StreamTestBench/core/stream.py:28-31 | the listener is appended, with no duplicate check |
| Parameters.Parameter.UpdateListeners | src/StreamTestBench/gui/parameters.py:26-42 | a non-None argument raises and calls no listener; otherwise each listener, in order, receives the parameter |
| Parameters.Parameter.SetValue | src/StreamTestBench/gui/parameters.py:48-57 | the value is stored first, then every listener is called once, in order, with the parameter, even when the value did not change |
| Parameters.SliderDefault | src/StreamTestBench/gui/parameters.py:67-68 | the initial value is the midpoint of the slider range: equidistant from both ends, and inside the range when it is not empty |
| BlockCore.Block.constructor | src/StreamTestBench/core/block.py:22-48 | a new block has the given name (default 'block') and no result stream |
| BlockCore.Block.Output | src/StreamTestBench/core/block.py:50-56 | the stream property is the result stream |
| BlockCore.Block.Testpoints | src/StreamTestBench/core/block.py:78-87 | the default test points are None |
| Propagation.Network.UpdateListeners | src/StreamTestBench/core/stream.py:33-38 | the loop over x's listeners appends exactly the trace Notify(x) and raises exactly when Notify(x) does, leaving the loop at the first subscriber that raised |
| Propagation.Network.ListenerUpdate | src/StreamTestBench/core/block.py:73-74 | a block's process runs once, then, unless it raised, its result stream notifies (a group re-notifies itself, stream.py:212-216); the trace grows by exactly Handle(l) and the outcome is Handle(l)'s |
| Propagation.ListenerUpdateReaches | src/StreamTestBench/core/block.py:73-74 | whoever runs during l's listener_update lies on a chain of subscriptions from l; when that listener_update does not raise, everyone on such a chain runs (both directions) |
| Propagation.UpdateListenersReaches | src/StreamTestBench/core/stream.py:35-36 | whoever runs during update_listeners on x is downstream of one of x's subscribers; when it does not raise, all of them have run before it returns |
| Propagation.HandleSound | src/StreamTestBench/core/block.py:73-74 | every listener that runs during a cascade lies on a subscription chain from where the cascade started |
| Propagation.HandleComplete | src/StreamTestBench/core/block.py:73-74 | when l's listener_update does not raise, every listener on a subscription chain from l runs during it |
| Propagation.HandleRaised | src/StreamTestBench/core/block.py:73-74 | a listener_update raises exactly when it ran the process of a raising block, and that process is then its last call |
| Propagation.HandleRaisesIff | src/StreamTestBench/core/block.py:73-74 | l's listener_update raises if and only if a block whose process raises lies downstream of l |
| Propagation.NotifyAllSnoc | src/StreamTestBench/core/stream.py:35-36 | one more listener in a loop that has not raised appends exactly that listener's cascade and outcome |
| Propagation.NotifyAllStops | src/StreamTestBench/core/stream.py:35-36 | once a subscriber raises, no later subscriber of the loop runs |
| Propagation.DiamondRunsTwice | src/StreamTestBench/core/block.py:73-74 | in the diamond A→B, A→C, B→D, C→D with no raising process, one notification of A runs B, D, C, D in that order, so D's process runs exactly twice |
| Propagation.DiamondAborts | src/StreamTestBench/core/block.py:73-74 | in the same diamond, when B's process raises, the notification of A runs B only and raises: C and D never run |
| MathBlocks.Magnitudes | src/StreamTestBench/blocks/math.py:82 | every output sample is non-negative and equals the input sample or its negation |
| MathBlocks.NegatedTwice | src/StreamTestBench/blocks/math.py:44 | inverting twice restores the original samples |
| MathBlocks.MagnitudesIdempotent | src/StreamTestBench/blocks/math.py:82 | taking magnitudes twice equals taking them once |
| MathBlocks.SumProductSamplewise | src/StreamTestBench/blocks/math.py:126-157 | for equal-length operands the sum and product are samplewise, with the operands in either order |
| MathBlocks.Store | src/StreamTestBench/blocks/math.py:44 | the computed buffer replaces the result's samples when its length is N; otherwise ValueError, and the old buffer stays |
| MathBlocks.Invert.constructor | src/StreamTestBench/blocks/math.py:15-28 | the result is a zero copy of the input, and the block is appended to the input's listeners |
| MathBlocks.Invert.Process | src/StreamTestBench/blocks/math.py:30-46 | result[i] = -input[i] for every i, in a fresh buffer; a stream of another length raises |
| MathBlocks.Absolute.constructor | src/StreamTestBench/blocks/math.py:54-66 | the result is a zero copy of the input, and the block is appended to the input's listeners |
| MathBlocks.Absolute.Process | src/StreamTestBench/blocks/math.py:68-84 | the result holds the magnitudes of the input, in a fresh buffer |
| MathBlocks.Multiply.constructor | src/StreamTestBench/blocks/math.py:92-110 | the result is a zero copy of a, and the block is subscribed to a and b (twice to a when b is a) |
| MathBlocks.Multiply.Process | src/StreamTestBench/blocks/math.py:112-128 | whichever input notified, the result is a * b after broadcasting; operands that cannot be combined into N samples raise ValueError |
| MathBlocks.Add.constructor | src/StreamTestBench/blocks/math.py:135-153 | the result is a zero copy of a, and the block is subscribed to a and b |
| MathBlocks.Add.Process | src/StreamTestBench/blocks/math.py:155-159 | whichever input notified, the result is a + b after broadcasting; incompatible operands raise ValueError |
| Filters.IntegerIIR.constructor | src/StreamTestBench/blocks/filters.py:12-22 | the result is a zero copy of the input, and the block listens to the input only |
| Filters.IntegerIIR.Process | src/StreamTestBench/blocks/filters.py:24-33 | every index of the existing result buffer is overwritten with the running average of the input as it was on entry (0.001 at index 0); the input is unchanged; an empty stream raises IndexError |
| Filters.IntegerIIRUnitFactor | src/StreamTestBench/blocks/filters.py:30 | with filter factor 1 the output equals the input at every index from 1 on |
| Filters.IntegerIIRBounded | src/StreamTestBench/blocks/filters.py:25-31 | with a filter factor of at least 1, an input bound that also covers 0.001 bounds every output sample |
| Filters.FloatIIR.constructor | src/StreamTestBench/blocks/filters.py:37-48 | the result is a zero copy of the input, and the block listens to both the input and the cutoff parameter |
| Filters.FloatIIR.Process | src/StreamTestBench/blocks/filters.py:50-63 | the existing result buffer holds the exponential moving average of the input on entry; the input is unchanged |
| Filters.FloatIIRNoDecay | src/StreamTestBench/blocks/filters.py:54-61 | with decay 0 the output is exactly the input |
| Filters.FloatIIRBounded | src/StreamTestBench/blocks/filters.py:57-61 | with 0 <= decay <= 1, every output sample stays within any bound on the input |
| Filters.ConvexStep | src/StreamTestBench/blocks/filters.py:59-60 | a filter step, a convex combination, stays within the bound of its two operands |
| Dsm.FirstOrderModulator | src/StreamTestBench/blocks/dsm.py:68-87 | raises IndexError exactly when vin outruns the buffers of length len(t); otherwise it returns (vin, u, y) with u and y the scaled or unscaled first-order recurrence |
| Dsm.SecondOrderModulator | src/StreamTestBench/blocks/dsm.py:90-112 | the same for the two-integrator loop, whose quantizer acts on v |
| Dsm.SecondOrderLoop | src/StreamTestBench/blocks/dsm.py:95-99 | over zero buffers of length m the loop fails exactly when vin outruns m, and otherwise leaves u, v and y holding the two-integrator recurrence |
| Dsm.NoiseStageInput | src/StreamTestBench/blocks/dsm.py:145-146 | e1[0] = 0 and e1[n] = y1[n-1] - u1[n] for 1 <= n < len(vin) |
| Dsm.ReconstructFirst | src/StreamTestBench/blocks/dsm.py:151-153 | y[n] = y1[n] - (y2[n] - y2[n-1]) for 1 <= n < len(vin), and 0 elsewhere |
| Dsm.ReconstructSecond | src/StreamTestBench/blocks/dsm.py:174-177 | y[n] = y1[n] minus the second difference of y2, with y2d[0] = 0 |
| Dsm.Mash11 | src/StreamTestBench/blocks/dsm.py:114-155 | MASH 1-1: the first-order signal stage, the noise stage on e1, then the reconstruction; raises IndexError exactly when vin outruns len(t) |
| Dsm.Mash21 | src/StreamTestBench/blocks/dsm.py:158-179 | MASH 2-1: a scaled second-order signal stage, a scaled first-order noise stage, and the reconstruction with the second difference |
| Dsm.Run | src/StreamTestBench/blocks/dsm.py:14-22 | run returns exactly the unscaled first-order modulator's result |
| Dsm.FirstOrderLevels | src/StreamTestBench/blocks/dsm.py:72-87 | every first-order output sample y[k] with 1 <= k < len(vin) is +1 or -1, and all others are 0 |
| Dsm.SecondOrderLevels | src/StreamTestBench/blocks/dsm.py:95-111 | the same for the second-order output |
| Dsm.FirstOrderStable | src/StreamTestBench/blocks/dsm.py:72-74 | for an input within full scale the integrator stays within twice the gain, and y[n] = 1 exactly when u[n] > 0 |
| Dsm.FirstOrderIntegrates | src/StreamTestBench/blocks/dsm.py:72-74 | the integrator holds the gain times (the sum of the inputs consumed minus the sum of the outputs fed back) |
| Dsm.FirstOrderTracksInput | src/StreamTestBench/blocks/dsm.py:72-74 | for an input within full scale the running sum of the output bits stays within 2 of the running sum of the input |
| Dsm.DifferenceBounded | src/StreamTestBench/blocks/dsm.py:152 | the first difference of a buffer bounded by b is bounded by 2b |
| Dsm.Mash11Levels | src/StreamTestBench/blocks/dsm.py:151-153 | every MASH 1-1 output sample lies in [-3, 3], and from index 2 on it is one of -3, -1, 1, 3 |
| Dsm.Mash21Levels | src/StreamTestBench/blocks/dsm.py:174-177 | every MASH 2-1 output sample lies in [-5, 5] |
| Dsm.FirstOrder.constructor | src/StreamTestBench/blocks/dsm.py:25-38 | the block is named 'First Order DSM', its result is a zero copy of the input, it listens to the input, and it starts with an empty 'Test Points' group |
| Dsm.FirstOrder.Testpoints | src/StreamTestBench/blocks/dsm.py:40-51 | an empty group is filled with [input, fresh zero 'v(u)', fresh zero 'v(y)'], each append subscribing the group; a non-empty group is returned unchanged |
| Dsm.FirstOrder.Process | src/StreamTestBench/blocks/dsm.py:53-66 | the test points are rebuilt as [input, u, y]; u and y hold the scaled first-order recurrence of the unchanged input; the result refers to the y buffer itself; the input gains one more subscription |
| Dsm.FirstOrderLoop | src/StreamTestBench/blocks/dsm.py:60-62 | the loop of process leaves the zero buffers u and y holding the scaled first-order recurrence of vin |
| Base.WriteScaled | src/StreamTestBench/core/waveform.py:74 | the output buffer itself ends up holding amplitude * series, element by element |
| Waveform.Wave.constructor | src/StreamTestBench/core/waveform.py:11-18 | the generator is bound to its stream, keeps its offset, and starts with frequency and amplitude 1 |
| Waveform.Wave.Generate | src/StreamTestBench/core/waveform.py:58-76 | frequency and amplitude are recorded; a series of N samples, or of one sample broadcast to N, times the amplitude fills the stream's existing buffer and the same stream is returned; any other length raises ValueError and leaves the buffer; no offset is added |
| Waveform.Trunc | src/StreamTestBench/core/waveform.py:173-174 | Python's int() of a float truncates toward zero: the result is within 1 of x, on the side of 0 |
| Waveform.RectangleSeries | src/StreamTestBench/core/waveform.py:168-178 | the loop writes 1 at each index of range(int(N/2) - int(w/2), int(start + w)), a negative index counting from the end; it raises IndexError exactly when an index falls outside -N..N-1, and otherwise the series is exactly those ones |
| Waveform.RectangleWithin | src/StreamTestBench/core/waveform.py:173-176 | for any width up to N the loop never raises; it writes the rectangle of int(w) ones starting at int(N/2) - int(w)/2 for w >= 0, and nothing for a negative w |
| Waveform.StepSeries | src/StreamTestBench/core/waveform.py:181-190 | the series is 0 before int(N/2) and 1 from there on, whatever the width |
| Waveform.RectangleFits | src/StreamTestBench/core/waveform.py:173-175 | for 0 <= w <= N the written range lies inside the buffer |
| Waveform.IndicatorTotal | src/StreamTestBench/core/waveform.py:175-176 | a series that is 1 exactly on [lo, hi) sums to hi - lo |
| Waveform.RectangleArea | src/StreamTestBench/core/waveform.py:168-178 | a rectangle pulse of a width w with 0 <= w <= N holds exactly floor(w) ones |
| Waveform.StepArea | src/StreamTestBench/core/waveform.py:181-190 | a step holds N - int(N/2) ones |
| Waveform.MaxWidth | src/StreamTestBench/core/waveform.py:124-126 | max_width is int(N/10): r*10 <= N < (r+1)*10 |
| Waveform.Pulse.constructor | src/StreamTestBench/core/waveform.py:105-112 | the pulse starts with width 1 and amplitude 1, and keeps its offset |
| Waveform.Pulse.Generate | src/StreamTestBench/core/waveform.py:147-165 | width and amplitude are recorded; a rectangle whose loop overruns the buffer raises IndexError and leaves the buffer; otherwise the stream's existing buffer becomes amplitude * the shape's series and the stream is returned; no offset is added |
| Waveform.SincBandwidth | src/StreamTestBench/core/waveform.py:202-205 | the bandwidth is at least 0.001: widths below 0.001 become 0.001, and others are kept |
| Waveform.SincSeries | src/StreamTestBench/core/waveform.py:198-216 | the centre sample int(N/2) is exactly 1; for a non-zero sample period every other sample is the kernel at the clamped bandwidth |
| Multipole.ShiftValue | examples/multipole.py:30 | 2**shift_count is never negative, and it is positive exactly from -1074 on; below that the float power underflows to 0.0 |
| Multipole.ShiftValueInverse | examples/multipole.py:30 | for -1074 <= k <= 1074 the gains of a shift by k and by -k multiply to 1 |
| Multipole.ShiftValueDoubles | examples/multipole.py:30 | from k = -1074 on, each extra step of shift doubles the gain |
| Multipole.Shift.constructor | examples/multipole.py:26-33 | the result is a zero copy of the input, the gain is 2**shift_count, and the block listens to the input |
| Multipole.Shift.Process | examples/multipole.py:35-44 | for k > 1023 the int gain does not convert to a float and OverflowError is raised before anything is stored, so the result keeps its buffer and contents; for -1074 <= k <= 1023 the existing result buffer holds input * 2**k; below -1074 the gain is 0.0 and the result shares the input's buffer; the divide branch is unreachable |
| Multipole.ShiftByZero | examples/multipole.py:30-37 | a shift by 0 is the identity |
| Multipole.ScaledInverse | examples/multipole.py:37 | scaling by a and then by its inverse returns the samples |
| Multipole.ShiftRoundTrip | examples/multipole.py:37 | for -1074 <= k <= 1074, shifting by k and then by -k returns the samples |
| Multipole.Cast.constructor | examples/multipole.py:48-55 | the block is named 'Resize', its result is a zero copy of the input, and it listens to the input |
| Multipole.Cast.Process | examples/multipole.py:57-59 | the existing result buffer holds a copy of the input's samples |
| Multipole.PolesChain | examples/multipole.py:71-73 | a settled chain input→p1→p2→p3 holds the input after 1, 2 and 3 stages with one filter factor |
| Multipole.PoleIndex | examples/multipole.py:83-88 | pole counts 1, 2 and 3 select that many stages; any other value selects none |
| Multipole.ThreePoleIIR.constructor | examples/multipole.py:63-78 | three IntegerIIR stages chain input→p1→p2→p3 with one factor; the block listens to the pole parameter and to p3's output only |
| Multipole.ThreePoleIIR.Process | examples/multipole.py:80-92 | the result aliases p1's, p2's or p3's buffer for a pole count of 1, 2 or 3, and the input's otherwise; on a settled chain it holds the input through that many stages |

## Left out

- The float `arange` time series and `max_frequency` (core/stream.py:66-67, 194): their values depend on floating-point rounding.
- The sine, square, triangle and random series (core/waveform.py:36-101): `Waveform.Wave.Generate` receives the amplitude series as an argument, since sin, sign, arcsin and randomness are not modelled.
- Waveform.SincSeries: the kernel sin(x)/x at x = 2*pi*bandwidth*t is a function parameter, so only the clamp and centre rule are proved.
- Filters.FloatIIR.Process: the decay exp(-2*pi*fc*dt) is a parameter instead of being computed from the cutoff.
- Filters.IntegerIIR.Process: requires a non-zero filter factor for streams longer than one sample: numpy's division by zero gives IEEE infinities, which reals do not have.
- Waveform.Wave.Generate: the series is one-dimensional; numpy broadcasting of arrays of other ranks is not modelled.
- Multipole.ShiftRoundTrip: holds for real samples; in float64 a product input * 2**k can overflow to infinity or lose the low bits of a subnormal, so the round trip is exact only where neither happens.
- Multipole.Shift.Process: the scaled samples are exact reals; float64 overflow and subnormal rounding of input * 2**k are not modelled.
- Propagation: whether a block's process raises is a fixed flag of the block, not computed from the samples it reads; the exception's type and message are not recorded.
- The label tuples the module-level modulator functions return alongside their buffers: they are constant strings.
- `SincPulse.max_width` (core/waveform.py:195-196): it reads a stream attribute that does not exist, so it always raises.
- Multipole.Cast.constructor: uses copy(name), because stream.py's copy has no dtype parameter; the dtype and numpy's unsafe casting play no part for real samples.
- Multipole.ThreePoleIIR.constructor: takes the filter factor as a real; the example passes its Parameter object, on which IntegerIIR's division would fail.
- Integer sample dtypes and their wrap-around: every buffer the bench allocates is float64.
- Propagation.Network.UpdateListeners: iterates over the listener list as it was at the start: a listener list that grows during the loop is not modelled, and Python's for loop would also visit the appended callbacks. The trace records callback runs; the values blocks compute are in the block classes.
- Recursion depth: the cascade is modelled only for acyclic wiring, where a decreasing rank exists; a cycle would exhaust Python's recursion limit.
- GUI panels, sliders, sinks, plots and the example wiring scripts: they are user interface over matplotlib.
- core/source.py is not part of this model; the generators write to their stream directly.
