# DualBandCompressor in Dafny

This is a model of the signal and state code of the DualBandCompressor audio
plug-in. The plug-in is a JUCE project. Its effect `MyEffect` splits each
stereo channel into a high band and a low band. It measures the level of each
band with a peak or an RMS detector, compresses each band through a soft-knee
gain curve with a lookahead delay, and mixes the result to stereo or mono.
The processor around the effect keeps the parameter store and the factory
presets. It also saves and restores the parameters as named XML attributes.
The model also covers the documented contract of JUCE's `MidiBuffer`.

Modules, one per part of the program:

- `Numerics`: the shared vocabulary.
  - Amplitudes are `real`.
  - C's float-to-int truncation is written out.
  - The library functions the plug-in calls (`log10`, `powf(10, _)`,
    `sqrt`, and the STK low-pass and high-pass filters) are arbitrary
    functions passed in a `Lib` value.
- `Controls` (Source/EffectEditor.h): the constant `UI_CONTROLS` and
  `UI_PRESETS` tables, the parameter count and the parameter index roles.
- `Parameters` (Source/PluginProcessor.h): `PluginParameters<COUNT>` as a
  class over an array, and the `Effect` constructor.
- `Envelope` (Source/EffectExtra.h): the `Peak` and `RMS` detectors as
  classes. Each `process` is proved against a step function on the
  detector's state. The gain curve of `Peak::compress` is a function in dB.
- `Ring` (Source/EffectPlugin.cpp, `delay`): the ring-buffer index
  arithmetic, and the ring invariant that relates the buffer to the history
  of its inputs.
- `Compressor` (Source/EffectPlugin.cpp): `MyEffect` as a class.
  - `initialise`, `delay`, `compressAndSendToMeter` and `process` are
    methods.
  - Each phase of the per-sample loop is proved against a function on an
    `EffectState` snapshot.
  - The whole block is proved against `Run`, which composes those phases.
- `Processor` (Source/PluginProcessor.cpp): the attribute-name sanitiser (a
  loop, and the filter that specifies it), saving and restoring state over an
  abstract XML element, and preset selection.
- `Midi` (juce_MidiBuffer.h): `MidiBuffer` and its `Iterator` as classes over
  a sorted sequence of events. Only the header is part of this model, so each
  operation follows its documentation.

Behaviour of the code that the model pins down:

- `delay` is called four times per input sample, and all four calls use
  `pfCircularBuffer0` with one shared write position. A lookahead of D whole
  calls therefore delays by D calls, not by D samples
  (`DelayMultipleOfFour`, `TenMillisecondsAt44100`).
- The same `peak[i]` and `rms[i]` objects serve the mono meters (with index
  = channel) and the band levels (with index = band). So every detector
  advances three times per sample.
- Three pairs of controls share a name: "Threshold (dB)", "Ratio (x:1)" and
  "Makeup Gain". They therefore share an attribute key. Saving and then
  restoring gives the high band the low band's threshold, ratio and makeup
  (`SaveRestore`, `SaveRestoreExact`).
- The "Add Body" preset stores 3.0 in the Mono toggle slot. Under that
  preset `process` writes no output samples (`AddBodyBreaksKneeAndMono`,
  `SelectOutput`). Two presets list 15 values, so their Lookahead slot is 0
  (`PresetTableShape`).
- The curve with the default knee value divides 0 by 0; see Findings.

## Model

| member | source | states |
|---|---|---|
| Numerics.Abs | Source/EffectExtra.h:23 | `fabs`: a non-negative value equal to x or -x |
| Numerics.TruncToInt | Source/EffectPlugin.cpp:73 | the float-to-int conversion truncates toward zero: the result is within 1 of x, on the side of 0 |
| Numerics.LinearToDecibel | Source/EffectPlugin.cpp:119-122 | definition: 20 * log10(p); `compress` computes its input level the same way (Source/EffectExtra.h:44) |
| Numerics.Compand | Source/EffectExtra.h:34 | definition: log10(39v + 1) / log10(40), the companding both detectors apply to a full window (also line 103) |
| Controls.UiControls | Source/EffectEditor.h:53-73 | definition: the 16 controls with their names, parameter indices, kinds, ranges and initial values; ControlTableShape and InitialValuesInRange state its properties |
| Controls.UiPresets | Source/EffectEditor.h:94-98 | definition: the three factory presets with their names and listed values; PresetTableShape and the preset lemmas state its properties |
| Controls.PresetOf | Source/EffectEditor.h:78-82 | a preset has exactly one value per parameter; listed values come first and unlisted slots are 0 |
| Controls.ControlTableShape | Source/EffectEditor.h:53-76 | the number of controls and parameters is the table length, 16, and entry c drives parameter c |
| Controls.InitialValuesInRange | Source/EffectEditor.h:55-71 | every control's initial value lies between its min and max |
| Controls.PresetTableShape | Source/EffectEditor.h:94-98 | there are exactly 3 presets, each with 16 values; the two 15-value presets get Lookahead 0 |
| Controls.PresetMenusAndMeters | Source/EffectEditor.h:90-97 | every preset's Detect Mode value is a menu item (0 or 1), and its three meter slots are 0 |
| Controls.BrightGuitarFollowsTable | Source/EffectEditor.h:95 | "Bright Guitar" follows the table's rules in every slot |
| Controls.DrumsSparkleBreaksKnee | Source/EffectEditor.h:96 | "Drums Sparkle" breaks the rules in exactly the Knee slot |
| Controls.AddBodyBreaksKneeAndMono | Source/EffectEditor.h:97 | "Add Body" breaks the rules in exactly the Knee and Mono slots, and its Mono toggle holds 3 |
| Parameters.ParameterStore.constructor | Source/PluginProcessor.h:31-35 | all COUNT values start at 0 |
| Parameters.ParameterStore.Effect | Source/PluginProcessor.h:73-78 | a store of 16 values in which value p is control p's initial value |
| Parameters.ParameterStore.GetNumParameters | Source/PluginProcessor.h:38-41 | returns COUNT, the array length |
| Parameters.ParameterStore.GetParameter | Source/PluginProcessor.h:43-48 | the stored value for an index in range, otherwise 0 |
| Parameters.ParameterStore.SetParameter | Source/PluginProcessor.h:50-54 | an index in range updates exactly that cell; any other index changes nothing |
| Parameters.ParameterStore.GetParameterName | Source/PluginProcessor.h:56-61 | the control's name for an index in range, otherwise the empty string |
| Parameters.SetThenGet | Source/PluginProcessor.h:43-54 | after a set in range, a get of that index yields the new value and every other index reads as before |
| Envelope.MaxAbs | Source/EffectExtra.h:23-28 | the window maximum of \|x\| is non-negative |
| Envelope.MaxAbsIsMaximum | Source/EffectExtra.h:23-28 | MaxAbs bounds every \|s[i]\| and is attained (or is 0 for an empty window) |
| Envelope.MaxAbsSnoc | Source/EffectExtra.h:25-28 | one more sample makes the maximum the larger of the old maximum and the new \|x\| |
| Envelope.SumSquares | Source/EffectExtra.h:93-95 | the accumulated sum of squares is non-negative |
| Envelope.SumSquaresSnoc | Source/EffectExtra.h:93-95 | one more sample adds its square to the sum |
| Envelope.Coefficient | Source/EffectExtra.h:38 | definition: the attack coefficient when the new window value exceeds the previous output, the release coefficient otherwise; the RMS detector does the same at line 107 |
| Envelope.Smooth | Source/EffectExtra.h:39 | definition: coeff * new + (1 - coeff) * old, the update both detectors return (also line 108); SmoothBetween and SmoothContracts state its properties |
| Envelope.SmoothBetween | Source/EffectExtra.h:38-39 | with a coefficient in [0, 1], the smoothed value lies between the old and the new window value |
| Envelope.SmoothContracts | Source/EffectExtra.h:38-39 | each update shrinks the distance to the new window value by the factor 1 - coeff |
| Envelope.PeakStep | Source/EffectExtra.h:21-40 | the counter resets exactly when it reaches the length, and stays in [0, length) for length >= 1; the maximum resets to 0 on a full window and otherwise is at least \|in\|; the output is the smoothed value |
| Envelope.PeakStepTracksWindow | Source/EffectExtra.h:23-36 | for a state that tracks window w, the call that fills the window publishes the companded maximum of \|x\| over w + [in] and resets the maximum; any other call keeps tracking w + [in] |
| Envelope.Peak.constructor | Source/EffectExtra.h:71 | `fLog40` is log10(40); the other fields are unset until `initialise` |
| Envelope.Peak.Initialise | Source/EffectExtra.h:14-19 | the state becomes (length, 0 items, max 0, both smoothed values 0), and the window is empty |
| Envelope.Peak.Process | Source/EffectExtra.h:21-40 | the new state and output are those of PeakStep; the window empties on a full count and otherwise gains the input |
| Envelope.RmsStep | Source/EffectExtra.h:91-109 | the counter resets exactly at 512 and stays in [0, 512); the sum resets on a full window; the output is the smoothed value |
| Envelope.RmsStepTracksWindow | Source/EffectExtra.h:93-105 | for a state that tracks window w, the 512th call publishes the companded sqrt(sum/512) of the squares of w + [in] and resets the sum; any other call keeps tracking w + [in] |
| Envelope.RMS.constructor | Source/EffectExtra.h:113 | only `fSumOfSamples` is initialised, to 0 |
| Envelope.RMS.Initialise | Source/EffectExtra.h:85-89 | the counter and the sum become 0; the smoothed values are untouched |
| Envelope.RMS.Process | Source/EffectExtra.h:91-109 | the new state and output are those of RmsStep; the window empties on the 512th call and otherwise gains the input |
| Envelope.SoftKnee | Source/EffectExtra.h:52 | definition: the quadratic interpolation of the middle region, x + (1/ratio - 1)(x - t + k/2)^2 / (2k), for ratio and k non-zero; SoftKneeContinuous states that it meets both neighbouring regions |
| Envelope.Curve | Source/EffectExtra.h:48-56 | definition: the three regions of the code, with y = x where the code divides by zero; CurveAgreesWithSource, CurveBelowKnee, CurveAboveKnee and CurveNeverBoosts state its properties |
| Envelope.CurveAsWritten | Source/EffectExtra.h:48-56 | the code's curve is undefined exactly when it reaches a division by 0: ratio 0 outside the pass-through region, or knee 0 at x = t |
| Envelope.CurveAgreesWithSource | Source/EffectExtra.h:48-56 | wherever the code's curve is defined, Curve gives the same value |
| Envelope.CurveAsWrittenZeroKnee | Source/EffectExtra.h:51-52 | at knee width 0 and x = t the code divides 0 by 0, and Curve gives x there |
| Envelope.CurveAsWrittenZeroRatio | Source/EffectExtra.h:51-55 | ratio 0 above the lower knee edge divides by 0, and Curve gives x there |
| Envelope.CurveBelowKnee | Source/EffectExtra.h:48-49 | below the knee, y = x |
| Envelope.CurveAboveKnee | Source/EffectExtra.h:54-55 | above the knee, y = t + (x - t) / ratio |
| Envelope.CurveNegativeKnee | Source/EffectExtra.h:48-56 | a negative knee width leaves only the two outer regions |
| Envelope.SoftKneeContinuous | Source/EffectExtra.h:51-52 | for k > 0 the soft knee meets both neighbouring regions at x - t = -k/2 and +k/2 |
| Envelope.CurveNeverBoosts | Source/EffectExtra.h:48-56 | for ratio >= 1, y <= x in every region and for every knee width |
| Envelope.Compress | Source/EffectExtra.h:42-67 | the gain is exactly 1 for input <= 0, and always positive. It uses the guarded Curve, so where the code computes 0/0 or x/0 (knee 0 at x = t, ratio 0) the gain is exactly 1 instead of NaN or infinity |
| Envelope.CompressUnityBelowKnee | Source/EffectExtra.h:48-65 | below the knee the gain is exactly 1 |
| Envelope.CompressNeverBoosts | Source/EffectExtra.h:48-65 | for a monotone 10^x and ratio >= 1 the gain lies in (0, 1] |
| Ring.Quantise | Source/EffectPlugin.cpp:73-74 | the lookahead becomes a whole number of hundredths, truncated toward zero |
| Ring.Offset | Source/EffectPlugin.cpp:73-78 | definition: the read offset is the quantised lookahead times the sample rate |
| Ring.Next | Source/EffectPlugin.cpp:68-71 | the write position advances by one and wraps to 0 at the size, staying in [0, size) |
| Ring.Pos | Source/EffectPlugin.cpp:68-71 | the write position after k calls lies in [0, size) |
| Ring.Back | Source/EffectPlugin.cpp:78-82 | `w - d`, plus the size when negative, lies in [0, size) for 0 <= d <= size |
| Ring.ReadIndex | Source/EffectPlugin.cpp:78-82 | the read index lies in [0, size), and for a whole offset it is Back of the write position |
| Ring.Zeros | Source/EffectPlugin.cpp:33-36 | n cells, all 0 |
| Ring.RingOf | Source/EffectPlugin.cpp:66-85 | the buffer contents after a history of inputs keep the buffer size |
| Ring.RingHolds | Source/EffectPlugin.cpp:66-85 | the cell d positions behind the write position holds the input of d calls ago, or 0 before the start |
| Ring.DelayStep | Source/EffectPlugin.cpp:66-85 | one `delay`: advance the position, write the input there, leave every other cell, and read at ReadIndex |
| Ring.DelayStepKeepsRing | Source/EffectPlugin.cpp:66-85 | `delay` keeps the ring invariant, and with an offset of D whole calls it returns the input of D calls ago |
| Ring.DelayFullOffsetIsIdentity | Source/EffectPlugin.cpp:76-84 | an offset of the full buffer size returns the input just written |
| Compressor.ThresholdDb | Source/EffectPlugin.cpp:148-153 | the threshold in dB, with values below -100 replaced by -60; never below -100 |
| Compressor.MakeupGain | Source/EffectPlugin.cpp:149 | makeup is 1 plus the parameter in dB, so it is 1 when log10 gives 0 |
| Compressor.BlockSettings | Source/EffectPlugin.cpp:133-145 | which parameter each block setting reads (band 0 from 0/1/2, band 1 from 7/8/9), attack and release as 0.1 minus the knob, knee in dB |
| Compressor.KnobRangesGiveUnitCoefficients | Source/EffectPlugin.cpp:136-137 | with the attack and release knobs inside their control ranges, both coefficients lie in [0, 1] |
| Compressor.Mix | Source/EffectPlugin.cpp:92-106 | for any gains: each delayed band is multiplied by its gain (the combined signal) and then by its band's makeup (the left and right outputs), and four times the total compression is the sum of the gains |
| Compressor.Gains | Source/EffectPlugin.cpp:89-91 | definition: band i of both channels goes through `compress` with band i's threshold and ratio and the shared knee width |
| Compressor.CompressAll | Source/EffectPlugin.cpp:87-106 | each gain is `compress` of its level, and the rest of the result is Mix of the delayed bands and those gains: signals scaled by gain, outputs by gain and makeup, mono mix and total compression as in Mix. Where the code divides by zero inside `compress` (knee 0 at x = t, or ratio 0) the gain here is exactly 1, see Envelope.Compress under Left out |
| Compressor.SelectOutput | Source/EffectPlugin.cpp:195-203 | mono flag 0 writes each channel's band mean, flag 1 writes the mono mix to both, and any other value writes nothing |
| Compressor.StereoOut | Source/EffectPlugin.cpp:196-197 | definition: a channel's stereo output is the mean of its two bands |
| Compressor.MonoMixIsMeanOfStereo | Source/EffectPlugin.cpp:96-106 | for any gains, the mono mix equals the mean of the two stereo outputs |
| Compressor.WithinMakeup | Source/EffectPlugin.cpp:103-106 | definition: each band of an output channel is at most its makeup factor times the delayed band, in magnitude |
| Compressor.MixWithinMakeup | Source/EffectPlugin.cpp:92-106 | with every gain in (0, 1], both output channels are within makeup |
| Compressor.MonoMixWithinBands | Source/EffectPlugin.cpp:96-99 | four times the magnitude of the mono mix is at most the sum of the four output bands' magnitudes |
| Compressor.NeverBeyondMakeup | Source/EffectPlugin.cpp:87-106 | for a monotone 10^x and both ratios >= 1, the compressor never amplifies beyond makeup: both output channels are within makeup, and four times the mono mix is at most the sum of the four makeup-times-delayed bounds |
| Compressor.TotalCompressionInUnitInterval | Source/EffectPlugin.cpp:101 | for ratios >= 1, every gain and the total compression lie in (0, 1] |
| Compressor.SilenceStaysSilent | Source/EffectPlugin.cpp:89-106 | silent delayed bands give silent outputs whatever the levels |
| Compressor.ZeroLevelsGiveMakeupOnly | Source/EffectPlugin.cpp:89-106 | with every level <= 0 the gains are 1 and the outputs are the makeup-scaled inputs |
| Compressor.FilterPhase | Source/EffectPlugin.cpp:161-169 | each filter history gains one tick at the centre cutoff; the high-pass filters see the negated input; only the filters and bands change |
| Compressor.MonoPhase | Source/EffectPlugin.cpp:171-172 | definition: the mono meter phase changes only the detectors and the two meter readings, which become those of MonoDetect |
| Compressor.MonoDetect | Source/EffectPlugin.cpp:171-172 | the mono meters are the means of peak[x] and rms[x] on channel x, with fixed coefficients 0.1 and 0.0003 |
| Compressor.LevelDetect | Source/EffectPlugin.cpp:179-184 | definition: for channel 0 then channel 1, band i goes through `peak[i]` and then `rms[i]` with the block's attack and release, so each detector object advances once per channel |
| Compressor.LevelPhase | Source/EffectPlugin.cpp:179-184 | definition: the band level phase changes only the detectors, and also yields the peak and RMS level quads of LevelDetect |
| Compressor.DelayCalls | Source/EffectPlugin.cpp:174-177 | four delay calls on the one buffer advance the write position four times |
| Compressor.DelayPhase | Source/EffectPlugin.cpp:174-177 | only the buffer and the shared write position change |
| Compressor.MeterAndMix | Source/EffectPlugin.cpp:186-193 | mode 0 compresses by the peak levels and clears the RMS meter; mode 1 compresses by the RMS levels and clears the peak meter; any other mode changes nothing |
| Compressor.SampleStep | Source/EffectPlugin.cpp:156-203 | one pass of the sample loop keeps the state runnable; its output is SelectOutput of the new mix; outside modes 0 and 1 the mix and parameters stay |
| Compressor.DualMonoSnoc | Source/EffectPlugin.cpp:199-202 | equal left and right samples keep a run dual-mono |
| Compressor.Run | Source/EffectPlugin.cpp:156-204 | a block writes n pairs under mono flag 0 or 1 and none otherwise; in mono mode both channels are identical |
| Compressor.RunWithIsRun | Source/EffectPlugin.cpp:156-204 | the loop run with the step passed as a value equals Run |
| Compressor.Overwrite | Source/EffectPlugin.cpp:196-201 | writing samples through an output pointer keeps the buffer length |
| Compressor.OverwriteCell | Source/EffectPlugin.cpp:196-201 | output cell j holds the j-th written sample, or its old value past the written ones |
| Compressor.StoreOutput | Source/EffectPlugin.cpp:195-203 | a written pair goes to the next position of both outputs, and the position advances by the number written |
| Compressor.StoreWritten | Source/EffectPlugin.cpp:195-203 | the output buffers stay Overwrite of their old contents by all pairs written so far |
| Compressor.FlattenIndex | Source/EffectPlugin.cpp:174-177 | delay call 4i + k carries band slot k of sample i |
| Compressor.DelayCallsKeepRing | Source/EffectPlugin.cpp:174-177 | the four calls of a sample keep the ring invariant over the history of all delay inputs |
| Compressor.DelayedSlot | Source/EffectPlugin.cpp:66-85 | the value `delay` returns for an offset of D whole calls, in terms of earlier samples' slots |
| Compressor.DelayMultipleOfFour | Source/EffectPlugin.cpp:174-177 | an offset of 4m calls delays every band by exactly m samples |
| Compressor.TenMillisecondsAt44100 | Source/EffectPlugin.cpp:73-78 | a 10 ms lookahead at 44.1 kHz is 441 calls, so the left high band receives the right low band of 111 samples earlier |
| Compressor.NewZeroedBuffers | Source/EffectPlugin.cpp:29-36 | two fresh buffers of the given size, every cell 0 |
| Compressor.InitialiseDetectors | Source/EffectPlugin.cpp:23-26 | the peak windows get the given length with every value 0; the RMS counters and sums are 0 |
| Compressor.DetectMono | Source/EffectPlugin.cpp:171-172 | the detector calls for the mono meters, as MonoDetect |
| Compressor.DetectLevels | Source/EffectPlugin.cpp:179-184 | the band-level detector calls, as LevelDetect |
| Compressor.MyEffect.constructor | Source/EffectPlugin.h:18-20 | the parameters hold their initial values; the effect is initialised at 44100 Hz: a zeroed buffer of 88200 cells, write position 0, peak windows of 44 samples |
| Compressor.MyEffect.Initialise | Source/EffectPlugin.cpp:20-41 | buffers of (int)(2 * rate) zeroed cells, write position 0, peak windows of (int)(0.001 * rate) samples, RMS windows reset |
| Compressor.MyEffect.Delay | Source/EffectPlugin.cpp:66-85 | one `delay` on the array: the position advances and wraps, the input is stored there, and the cell at the read index is returned |
| Compressor.MyEffect.CompressAndSendToMeter | Source/EffectPlugin.cpp:87-117 | the mix members become CompressAll; the peak or the RMS meter follows the detect mode, and the compression meter is always set |
| Compressor.MyEffect.SplitBands | Source/EffectPlugin.cpp:161-169 | the state becomes FilterPhase of the old state |
| Compressor.MyEffect.MonoMeters | Source/EffectPlugin.cpp:171-172 | the state becomes MonoPhase of the old state |
| Compressor.MyEffect.DelayFour | Source/EffectPlugin.cpp:174-177 | the buffer, write position and delayed bands are those of DelayCalls |
| Compressor.MyEffect.DelayCallsOnRing | Source/EffectPlugin.cpp:174-177 | as DelayFour, and the ring invariant holds over the extended delay history |
| Compressor.MyEffect.DelayBands | Source/EffectPlugin.cpp:174-177 | the state becomes DelayPhase of the old state |
| Compressor.MyEffect.BandLevels | Source/EffectPlugin.cpp:179-184 | the state and the two level quads are those of LevelPhase |
| Compressor.MyEffect.DetectModeBranch | Source/EffectPlugin.cpp:186-193 | the parameters and the mix become those of MeterAndMix; the knee, detect mode, lookahead, release, rate and buffer size are unchanged |
| Compressor.MyEffect.CompressByDetectMode | Source/EffectPlugin.cpp:186-193 | the state becomes MeterAndMix of the old state |
| Compressor.MyEffect.SplitMeterDelay | Source/EffectPlugin.cpp:158-177 | the state becomes the filter, mono and delay phases composed |
| Compressor.MyEffect.ProcessSample | Source/EffectPlugin.cpp:156-203 | the state and output become those of SampleStep |
| Compressor.MyEffect.BlockStep | Source/EffectPlugin.cpp:156-203 | one pass keeps the block loop invariant: the state is the run so far and the outputs hold its pairs |
| Compressor.MyEffect.RunStep | Source/EffectPlugin.cpp:156-203 | a sample step extends the run by one sample |
| Compressor.MyEffect.Process | Source/EffectPlugin.cpp:127-206 | the gains come from the guarded Curve (gain 1 where the code divides by zero, see Envelope.Compress under Left out); the block settings are read once; the final state is Run of the old state on the inputs, and the outputs hold the pairs Run wrote, in order |
| Compressor.MyEffect.RunSamples | Source/EffectPlugin.cpp:156-204 | the sample loop under fixed settings ends in Run's state and output pairs |
| Compressor.MyEffect.RunBlock | Source/EffectPlugin.cpp:156-204 | the loop keeps the block invariant through every sample |
| Processor.KeepChar | Source/PluginProcessor.cpp:203 | definition: a letter or digit, '_', '-' or ':' (ASCII letters and digits, see Left out) |
| Processor.Kept | Source/PluginProcessor.cpp:201-206 | the name built so far is no longer than the characters read |
| Processor.SanitiseName | Source/PluginProcessor.cpp:201-206 | the character loop builds exactly the sanitised name |
| Processor.PicksKeep | Source/PluginProcessor.cpp:203-204 | reading a kept character extends the picked positions |
| Processor.PicksSkip | Source/PluginProcessor.cpp:203 | reading a dropped character leaves the picked positions |
| Processor.KeptPicks | Source/PluginProcessor.cpp:201-206 | the name is the subsequence of the input at exactly the positions of its kept characters, in order |
| Processor.Sanitised | Source/PluginProcessor.cpp:201-206 | definition: the name the character loop builds from the whole string; SanitisedPicks and SanitisedIdempotent state its properties |
| Processor.SanitisedPicks | Source/PluginProcessor.cpp:201-206 | the sanitised name keeps exactly the letters, digits, '_', '-' and ':' of the name, in order |
| Processor.KeptAllKept | Source/PluginProcessor.cpp:201-206 | a string of kept characters passes unchanged |
| Processor.KeptOnlyKept | Source/PluginProcessor.cpp:203-204 | every character of the built name is a kept character |
| Processor.SanitisedIdempotent | Source/PluginProcessor.cpp:201-206 | sanitising a sanitised name changes nothing |
| Processor.KeptStart | Source/PluginProcessor.cpp:201-206 | a name that starts with two kept characters keeps them as its first two |
| Processor.NameStartsDistinct | Source/EffectEditor.h:55-71 | two control names share their first two characters exactly when they are a band-0/band-1 pair |
| Processor.Key | Source/PluginProcessor.cpp:200-206 | definition: the attribute name of parameter p is its control name sanitised; the same loop appears again at lines 231-237; KeyStarts and DuplicateKeys state its properties |
| Processor.KeyStarts | Source/PluginProcessor.cpp:200-206 | every parameter's key starts with the first two characters of its control name |
| Processor.DuplicateKeys | Source/PluginProcessor.cpp:200-207 | two parameters share a key exactly when they are threshold, ratio or makeup of the two bands; no key is a UI-size name |
| Processor.KeyNotSize | Source/PluginProcessor.cpp:197-207 | no parameter is saved under "uiWidth" or "uiHeight" |
| Processor.Keys | Source/PluginProcessor.cpp:200-207 | the 16 keys in parameter order |
| Processor.SavedAttrs | Source/PluginProcessor.cpp:197-208 | definition: the UI size under "uiWidth" and "uiHeight", then each parameter in index order under its key, a later set of the same name replacing the earlier value |
| Processor.SavedState | Source/PluginProcessor.cpp:188-208 | definition: the element tagged "MYPLUGINSETTINGS" holding SavedAttrs for all 16 parameters |
| Processor.SavedNames | Source/PluginProcessor.cpp:194-208 | the saved attributes are exactly the two UI-size names and the parameters' keys |
| Processor.SavedLastWriter | Source/PluginProcessor.cpp:200-208 | under a key no later parameter uses, the saved value is that parameter's value |
| Processor.SavedSize | Source/PluginProcessor.cpp:197-208 | the UI size is saved unchanged when no parameter key is a UI-size name |
| Processor.DoubleAttribute | Source/PluginProcessor.cpp:238 | definition: `getDoubleAttribute` gives the stored value when the name is present and the default otherwise |
| Processor.IntAttribute | Source/PluginProcessor.cpp:228-229 | definition: `getIntAttribute` gives the stored value truncated toward zero when the name is present and the default otherwise |
| Processor.Restored | Source/PluginProcessor.cpp:231-239 | a parameter whose key is present takes the attribute's value; one whose key is absent keeps its current value |
| Processor.KeyOwner | Source/PluginProcessor.cpp:200-207 | the parameter whose value survives under p's key is p itself or a later one |
| Processor.KeyOwnerShares | Source/PluginProcessor.cpp:200-207 | the owner has p's key and no later parameter does |
| Processor.SaveRestore | Source/PluginProcessor.cpp:188-242 | save then restore gives back the UI size and gives each parameter its key owner's saved value, whatever it held before |
| Processor.RestoredFromOwner | Source/PluginProcessor.cpp:200-239 | each restored parameter holds its key owner's saved value |
| Processor.SaveRestoreExact | Source/PluginProcessor.cpp:188-242 | the round trip restores every parameter exactly when each shared name holds the same value in both bands |
| Processor.RestoresAll | Source/PluginProcessor.cpp:188-242 | equal band pairs make the round trip exact |
| Processor.PluginAudioProcessor.constructor | Source/PluginProcessor.cpp:8-26 | program 0, a 1280 by 600 UI, and an effect whose parameters hold their initial values |
| Processor.PluginAudioProcessor.GetNumParameters | Source/PluginProcessor.cpp:41-44 | 16, the length of the effect's store |
| Processor.PluginAudioProcessor.GetParameter | Source/PluginProcessor.cpp:46-52 | the effect's value for an index in range, otherwise 0 |
| Processor.PluginAudioProcessor.SetParameter | Source/PluginProcessor.cpp:54-60 | an index in range updates exactly that parameter; any other index changes nothing |
| Processor.PluginAudioProcessor.GetStateInformation | Source/PluginProcessor.cpp:188-212 | the element is the tagged map of the UI size and every parameter under its key, later parameters overwriting earlier ones |
| Processor.PluginAudioProcessor.SetStateInformation | Source/PluginProcessor.cpp:214-242 | nothing changes for an undecodable state or a foreign tag; otherwise the UI size and parameters are read back with the current values as defaults |
| Processor.PluginAudioProcessor.RestoreParameters | Source/PluginProcessor.cpp:231-239 | the parameters become Restored of the element and their old values |
| Processor.PluginAudioProcessor.GetNumPrograms | Source/PluginProcessor.cpp:292-294 | the number of factory presets, 3 |
| Processor.PluginAudioProcessor.GetCurrentProgram | Source/PluginProcessor.cpp:295-297 | the program last selected |
| Processor.PluginAudioProcessor.SetCurrentProgram | Source/PluginProcessor.cpp:298-303 | for a valid index, the program is set and every parameter equals the preset's value |
| Processor.PluginAudioProcessor.LoadPreset | Source/PluginProcessor.cpp:300-302 | the loop over the parameters leaves them equal to the preset |
| Processor.PluginAudioProcessor.GetProgramName | Source/PluginProcessor.cpp:304-306 | the preset's name for a valid index |
| Midi.EventAfter | JuceLibraryCode/modules/juce_audio_basics/midi/juce_MidiBuffer.h:232 | the scan stops at an index between its start and the end |
| Midi.EventAfterSplits | JuceLibraryCode/modules/juce_audio_basics/midi/juce_MidiBuffer.h:232 | the scan passes only events at or before the position and stops at a later one |
| Midi.SortedAfter | JuceLibraryCode/modules/juce_audio_basics/midi/juce_MidiBuffer.h:232 | in a sorted buffer, everything before the stop is at or before the position and everything from it on is later |
| Midi.Insert | JuceLibraryCode/modules/juce_audio_basics/midi/juce_MidiBuffer.h:87-98 | definition: the events before the scan's stop, then the new event, then the rest; InsertPlaces, InsertCounts, InsertBefore and InsertSorted state its properties |
| Midi.InsertPlaces | JuceLibraryCode/modules/juce_audio_basics/midi/juce_MidiBuffer.h:87-98 | the new event goes after every event at or before its position, and the other events keep their order |
| Midi.InsertCounts | JuceLibraryCode/modules/juce_audio_basics/midi/juce_MidiBuffer.h:87-98 | inserting adds exactly the one event |
| Midi.InsertBefore | JuceLibraryCode/modules/juce_audio_basics/midi/juce_MidiBuffer.h:93-94 | in a sorted buffer every event after the new one is strictly later |
| Midi.InsertSorted | JuceLibraryCode/modules/juce_audio_basics/midi/juce_MidiBuffer.h:87-91 | inserting keeps the buffer sorted |
| Midi.Moved | JuceLibraryCode/modules/juce_audio_basics/midi/juce_MidiBuffer.h:131-132 | definition: an event's position is moved by the delta and its message is kept |
| Midi.InsertAll | JuceLibraryCode/modules/juce_audio_basics/midi/juce_MidiBuffer.h:120-137 | definition: the events moved by the delta are inserted one after another, in order; InsertAllProperties states its properties |
| Midi.InsertAllProperties | JuceLibraryCode/modules/juce_audio_basics/midi/juce_MidiBuffer.h:120-137 | adding several events keeps the buffer sorted and adds exactly those events, shifted |
| Midi.Outside | JuceLibraryCode/modules/juce_audio_basics/midi/juce_MidiBuffer.h:66-71 | the events outside [start, start + n), in order, and no more events than the buffer had; OutsideMembers states the membership |
| Midi.OutsideMembers | JuceLibraryCode/modules/juce_audio_basics/midi/juce_MidiBuffer.h:66-71 | an event survives a range clear exactly when it is outside [start, start + n) |
| Midi.SortedCut | JuceLibraryCode/modules/juce_audio_basics/midi/juce_MidiBuffer.h:66-71 | cutting a block out of a sorted buffer leaves it sorted |
| Midi.ClearBlock | JuceLibraryCode/modules/juce_audio_basics/midi/juce_MidiBuffer.h:66-71 | in a sorted buffer the events in the range form the block between two scans |
| Midi.Window | JuceLibraryCode/modules/juce_audio_basics/midi/juce_MidiBuffer.h:122-130 | the source events at or after start and, for n >= 0, before start + n, in order, and no more events than the source had; WindowMembers states the membership |
| Midi.WindowMembers | JuceLibraryCode/modules/juce_audio_basics/midi/juce_MidiBuffer.h:122-130 | the window holds exactly the source events at or after start and before start + n, or all from start when n < 0 |
| Midi.WindowBlock | JuceLibraryCode/modules/juce_audio_basics/midi/juce_MidiBuffer.h:122-130 | in a sorted source the window is the block from the first event at or after start |
| Midi.Shift | JuceLibraryCode/modules/juce_audio_basics/midi/juce_MidiBuffer.h:131-132 | each event is moved by the delta, in order |
| Midi.MidiBuffer.constructor | JuceLibraryCode/modules/juce_audio_basics/midi/juce_MidiBuffer.h:47-48 | an empty buffer |
| Midi.MidiBuffer.Clear | JuceLibraryCode/modules/juce_audio_basics/midi/juce_MidiBuffer.h:63-64 | removes all events |
| Midi.MidiBuffer.FindEventAfter | JuceLibraryCode/modules/juce_audio_basics/midi/juce_MidiBuffer.h:232 | the loop returns the index EventAfter specifies |
| Midi.MidiBuffer.ClearRange | JuceLibraryCode/modules/juce_audio_basics/midi/juce_MidiBuffer.h:66-71 | removes exactly the events in [start, start + n), keeps the rest in order and the buffer sorted |
| Midi.MidiBuffer.IsEmpty | JuceLibraryCode/modules/juce_audio_basics/midi/juce_MidiBuffer.h:73-77 | true exactly when there are no events |
| Midi.MidiBuffer.GetNumEvents | JuceLibraryCode/modules/juce_audio_basics/midi/juce_MidiBuffer.h:79-85 | the number of events |
| Midi.MidiBuffer.AddEvent | JuceLibraryCode/modules/juce_audio_basics/midi/juce_MidiBuffer.h:87-98 | the buffer becomes Insert of the event and stays sorted |
| Midi.MidiBuffer.AddEvents | JuceLibraryCode/modules/juce_audio_basics/midi/juce_MidiBuffer.h:120-137 | adds the other buffer's window, each event shifted, inserted one after another |
| Midi.MidiBuffer.AddWindow | JuceLibraryCode/modules/juce_audio_basics/midi/juce_MidiBuffer.h:120-137 | the copy loop stops at the first source event past the window and inserts exactly the events before it |
| Midi.MidiBuffer.GetFirstEventTime | JuceLibraryCode/modules/juce_audio_basics/midi/juce_MidiBuffer.h:139-143 | the earliest position, or 0 when empty |
| Midi.MidiBuffer.GetLastEventTime | JuceLibraryCode/modules/juce_audio_basics/midi/juce_MidiBuffer.h:145-149 | the latest position, or 0 when empty |
| Midi.MidiBuffer.SwapWith | JuceLibraryCode/modules/juce_audio_basics/midi/juce_MidiBuffer.h:151-157 | the two buffers exchange their events |
| Midi.MidiIterator.constructor | JuceLibraryCode/modules/juce_audio_basics/midi/juce_MidiBuffer.h:178-179 | an iterator at the buffer's first event |
| Midi.MidiIterator.SetNextSamplePosition | JuceLibraryCode/modules/juce_audio_basics/midi/juce_MidiBuffer.h:185-188 | the next event is the first one at or after the position |
| Midi.MidiIterator.GetNextEvent | JuceLibraryCode/modules/juce_audio_basics/midi/juce_MidiBuffer.h:190-199 | hands out the next event and moves past it, or returns false at the end |
| Midi.SeekThenNext | JuceLibraryCode/modules/juce_audio_basics/midi/juce_MidiBuffer.h:185-199 | after positioning at p, an event is found exactly when one at or after p exists, and it is the first such event |

## Left out

- Envelope.Compress: uses the guarded `Curve`. Where the code divides by zero (knee width 0 with x = t, or ratio 0 outside the pass-through region), the model gives y = x and a gain of exactly 1 instead of NaN or infinity. `CurveAsWritten` exposes those cases, and `CurveAgreesWithSource` shows that the two curves agree everywhere else. This carries over to `Compressor.CompressAll` and `Compressor.MyEffect.Process`.
- Floating point: amplitudes are reals. Float rounding, infinities such as log10(0) = -inf, and NaN propagation are not modelled. The divisions by zero these would produce are exposed as `None` by `CurveAsWritten` instead.
- `log10`, `powf(10, _)`, `sqrt` and the STK `LPF`/`HPF` filters are code this model cannot see. They are arbitrary functions in `Numerics.Lib`; each filter is a function of its whole tick history. `Lib.Sane` asks only that log10(40) > 0 and 10^x > 0, and `Lib.Monotone` is asked for only by the "never boosts" lemmas.
- Scratch members are not separate state: `fAval`, `y`, `linX` and `linY` are written before every read within one call. `fSumOfOldSamples`, `fThresh`, `fRatio`, `fKneeWidth`, `kneeResult` and `output` are never read, so they are left out.
- `pfCircularBuffer1` is allocated and zeroed (`NewZeroedBuffers`) but never used by `process`, so its contents are not tracked afterwards.
- Compressor.MyEffect.Process: requires the quantised lookahead times the rate (the read offset) to lie in [0, buffer size], and requires distinct input, output, parameter and ring arrays. The C++ reads outside the buffer exactly when the write position minus the offset, truncated and wrapped once by adding the size when negative, lies outside [0, size). Some offsets outside [0, size] still read inside the buffer: offsets in (size, size + w] and small negative offsets with w - offset < size. The model leaves all offsets outside [0, size] out. The Lookahead control's range [0, 0.2] s and the buffer of (int)(2 * rate) cells keep the offset inside [0, size].
- Compressor.MyEffect.Delay: models the read index only for offsets in [0, buffer size]. The C++ index may fall outside the buffer for other offsets, exactly when the index after the one wrap is outside [0, size); the in-bounds offsets outside [0, size] are not modelled either. A fractional offset is truncated as the C++ does (`ReadIndex`), but the delay lemmas speak only of whole offsets.
- Compressor.MyEffect.constructor: the global `APDI::SAMPLE_RATE` is the constant 44100 the `Effect` and processor constructors set; `prepareToPlay` and later rate changes are host glue and not modelled.
- `cleanup`, `presetLoaded`, `optionChanged` and `buttonPressed` have empty bodies and are not modelled.
- The editor (Source/PluginEditor.cpp, Source/PluginEditor.h), `processBlock`, the transport, resource loading, play-head queries, the MIDI keyboard state and `getParameterText` formatting are host and UI code; they are not part of this model.
- Concurrency: host-thread parameter access is treated as single-threaded.
- XML encoding and decoding (`copyXmlToBinary`, `getXmlFromBinary`): a saved element is a tag and a map from names to reals; a blob that does not decode is `None`. The decimal text of attributes is not modelled, so `getIntAttribute` is the truncation of the stored number.
- Processor.KeepChar: JUCE's `isLetterOrDigit` is Unicode-aware; the model keeps ASCII letters and digits only, which is all the control names contain.
- Processor.PluginAudioProcessor.SetCurrentProgram: requires 0 <= index < 3. The C++ indexes `UI_PRESETS` without a check, so an index outside that range is undefined behaviour there and is not modelled.
- Processor.PluginAudioProcessor.GetProgramName: requires 0 <= index < 3 for the same reason.
- `getParameterName` of the processor only forwards to `Parameters.ParameterStore.GetParameterName`, which is modelled.
- Midi: only the header of `MidiBuffer` is part of this model. Its operations follow the documentation; the byte layout of the stored data is not modelled, and messages are opaque byte sequences.
- Midi.MidiBuffer.AddEvents: requires the other buffer to be a different object; adding a buffer to itself is not modelled.
- The raw-data `addEvent` and raw `getNextEvent` overloads, `ensureSize`, the copy and single-message constructors, `operator=` and the byte-length parsing of raw MIDI data have no bodies in the header and are not modelled.
- `NumberOfControls` is written as the literal 16; `ControlTableShape` proves that it equals the length of the control table.

## Findings

| source | as written | input that shows it | evidently intended | confidence | as-written member | corrected member |
|---|---|---|---|---|---|---|
| Source/EffectExtra.h:51-52 | the soft-knee branch divides by `kneeWidth * 2.0` and is taken whenever `2 * \|x - thresh\| <= kneeWidth` | knee parameter 1.0 (the control's initial value), so kneeWidth = 20·log10(1) = 0, with an input level x equal to the threshold: the branch computes 0/0 | a zero knee width is a hard knee, where x = t gives y = x | not executed | Envelope.CurveAsWrittenZeroKnee | Envelope.Curve |
