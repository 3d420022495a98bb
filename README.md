# DaisyTape core in Dafny

A model of the processing core of DaisyTape, a block-based stereo tape emulation for the Daisy Seed.
It covers these parts:

- the loss filter's double-buffered FIR and head-bump slots and its crossfade state machine (`LossFilterParts`, `LossFilterSpec`, `LossFilterStage`);
- the degrade stage, meaning the noise, the one-pole filter slew, the level detector, the output-gain slew and the 2048-sample control period (`DegradeSpec`, `DegradeParts`, `DegradeStage`);
- the 4th-order Linkwitz-Riley crossover (`LinkwitzRiley`);
- the input filters with their makeup path (`InputFilterStage`);
- the `TapeProcessor` that wires them, with its fixed latency compensation and its dry/wet mix (`Tape`);
- the azimuth stage, meaning the delay smoother and the per-channel delay (`Azimuth`).

Every C++ class that updates its fields in place is a Dafny class with the same fields.
Fixed-size sample buffers and register files stay arrays, and pointers become nullable references. The two-element member arrays of objects and pointers (`lowCutFilter[2]`, `highCutFilter[2]`, `makeupDelay[2]`) and the outer dimension of the scratch rows `makeupLowBuffer`/`makeupHighBuffer` are sequences; each scratch row is an array.
Each method is proved against a pure function of the old state and inputs. The source's promises are then proved as lemmas about those functions.

Samples, gains and frequencies are `real`. `tan`, `exp`, `sin`, `cos`, `sqrt` and `pow` are uninterpreted fields of `DspMath.MathLib`.
`rand()` is an abstract stream of draws with a cursor (`DegradeParts.Rand`). Every generator in the source shares that one global stream.
The daisysp delay line is `DelayLines.DelayLine`: the history written since `Init`, a delay setting, and uninterpreted read functions.

## Model

| member | source | states |
|---|---|---|
| LossFilterParts.FirStep | include/DaisyLossFilter.h:52-76 | one process call keeps the 70 taps and leaves a valid ring and head |
| LossFilterParts.WindowAfterWrite | include/DaisyLossFilter.h:54-55 | writing at the head and advancing it puts the new sample at the front of the history and drops the oldest |
| LossFilterParts.RingConvIsDot | include/DaisyLossFilter.h:58-68 | the backwards walk over the ring, wrapping from 0 to 69, sums tap i times the i-th most recent sample |
| LossFilterParts.FirStepIsConvolution | include/DaisyLossFilter.h:52-76 | after process the history is the new input followed by all but the oldest previous sample, and each output is the dot product of the taps with that history |
| LossFilterParts.StereoFIR.constructor | include/DaisyLossFilter.h:27 | a new FIR has zero taps, zero rings and head 0 |
| LossFilterParts.StereoFIR.Reset | include/DaisyLossFilter.h:29-36 | zeroes all 70 taps and both rings and sets the head to 0 |
| LossFilterParts.StereoFIR.CopyStateFrom | include/DaisyLossFilter.h:38-44 | takes over the other FIR's head and both rings; the taps stay |
| LossFilterParts.StereoFIR.SetCoefficients | include/DaisyLossFilter.h:46-50 | replaces the taps with the first 70 values given; rings and head stay |
| LossFilterParts.StereoFIR.Process | include/DaisyLossFilter.h:52-76 | new state and both outputs are those of FirStep on the old state |
| LossFilterParts.StereoFIR.Convolve | include/DaisyLossFilter.h:58-68 | the convolution loop returns the ring-indexed sum for both channels |
| LossFilterParts.BiquadStep | include/DaisyLossFilter.h:110-121 | one process call keeps the two-deep histories well formed |
| LossFilterParts.BiquadRun | include/DaisyLossFilter.h:110-121 | a run of samples yields one output per input on each channel |
| LossFilterParts.BiquadRunKeepsCoeffs | include/DaisyLossFilter.h:110-121 | processing changes the histories and never the five coefficients |
| LossFilterParts.FollowsDF1Snoc | include/DaisyLossFilter.h:112-120 | one more sample obeying the direct-form-I equation extends a signal pair that obeys it |
| LossFilterParts.BiquadRunRecurrence | include/DaisyLossFilter.h:110-121 | on both channels every output of a run obeys the direct-form-I equation over the whole signal, and each channel's histories end holding its last two inputs and outputs |
| LossFilterParts.StereoBiquad.constructor | include/DaisyLossFilter.h:88-91 | the struct starts with well-formed but unspecified registers |
| LossFilterParts.StereoBiquad.Reset | include/DaisyLossFilter.h:93-97 | all eight history registers and all five coefficients become 0 |
| LossFilterParts.StereoBiquad.CopyStateFrom | include/DaisyLossFilter.h:99-104 | takes over the other biquad's eight history registers; coefficients stay |
| LossFilterParts.StereoBiquad.SetCoeffs | include/DaisyLossFilter.h:106-108 | replaces the five coefficients; histories stay |
| LossFilterParts.StereoBiquad.Process | include/DaisyLossFilter.h:110-121 | new state and both outputs are those of BiquadStep |
| LossFilterSpec.BlockStartValid | src/DaisyLossFilter.cpp:147-150 | a pending trigger with no running fade starts a fade of exactly 1024 samples and clears the trigger |
| LossFilterSpec.TicksClosedForm | src/DaisyLossFilter.cpp:179-200 | n samples count a running fade down by n, and the slots swap exactly when the counter reaches 0 |
| LossFilterSpec.TicksCompose | src/DaisyLossFilter.cpp:166-205 | how samples are split into calls does not change the fade bookkeeping |
| LossFilterSpec.RunBlocksUntriggered | src/DaisyLossFilter.cpp:142-205 | without a trigger, several blocks act like one block of their total length |
| LossFilterSpec.FadeTakesEffect | src/DaisyLossFilter.cpp:147-200 | once triggered, the fade runs for 1024 samples over any split into blocks, after which the other slot is active and no fade runs |
| LossFilterSpec.FadeGain | src/DaisyLossFilter.cpp:189-190 | the outgoing weight is fadeCounter / 1024, in (0, 1] |
| LossFilterSpec.AtMostOneUpdatePerFade | src/DaisyLossFilter.cpp:53 | between two audio blocks at most one parameter update is accepted, and none while a fade is pending or running |
| LossFilterSpec.DroppedUpdateIsForgotten | src/DaisyLossFilter.cpp:45-53 | a dropped update is still stored, so resending the same values after the fade is ignored |
| LossFilterSpec.StartFade | src/DaisyLossFilter.cpp:147-163 | block-start handling moves the bookkeeping as BlockStart does |
| LossFilterSpec.SlotStep | src/DaisyLossFilter.cpp:175-176 | running one slot touches only that slot's FIR ring and biquad histories, never its taps or the other slot |
| LossFilterSpec.LossSample | src/DaisyLossFilter.cpp:166-205 | one sample moves the bookkeeping exactly as one Tick |
| LossFilterSpec.LossSampleFading | src/DaisyLossFilter.cpp:179-200 | during a fade the output is the active slot's output times fadeCounter/1024 plus the back slot's output times the complement |
| LossFilterSpec.LossRun | src/DaisyLossFilter.cpp:166-205 | a block yields one output per input on each channel |
| LossFilterSpec.LossRunSnoc | src/DaisyLossFilter.cpp:166-205 | the run over n + 1 samples extends the run over n by one sample |
| LossFilterSpec.LossRunFade | src/DaisyLossFilter.cpp:166-205 | the audio never influences the fade bookkeeping: n samples move it as n Ticks |
| LossFilterSpec.StartFadeSyncs | src/DaisyLossFilter.cpp:151-162 | starting a fade leaves both FIR slots with the same ring contents and head |
| LossFilterSpec.LossSampleSynced | src/DaisyLossFilter.cpp:174-187 | feeding both slots the same input keeps them synchronised |
| LossFilterSpec.LossRunSynced | src/DaisyLossFilter.cpp:166-205 | the slots stay synchronised over a whole block |
| LossFilterSpec.SampleWithoutFade | src/DaisyLossFilter.cpp:174-179 | with no fade running only the active slot runs and is heard; the back slot is untouched |
| LossFilterSpec.LossResponse | src/DaisyLossFilter.cpp:102-119 | Hcoefs has 70 bins and is mirror-symmetric |
| LossFilterSpec.FirTaps | src/DaisyLossFilter.cpp:122-135 | computedFir has 70 taps and tap 0 is never written |
| LossFilterSpec.FirTapsSymmetric | src/DaisyLossFilter.cpp:133-134 | the impulse response is symmetric about tap 35 (linear phase) |
| LossFilterSpec.BumpGain | src/DaisyLossFilter.cpp:76 | the peak gain lies in [1, 1.5], is 1.5 at a 100 Hz bump, and is 1 exactly when the bump is at least 333.3 Hz away from 100 Hz |
| LossFilterSpec.HeadBump | src/DaisyLossFilter.cpp:68-95 | the normalised peaking design shares its -2cos(phi)/a0 term between b1 and a1 |
| LossFilterSpec.HeadBumpPeaking | src/DaisyLossFilter.cpp:85-94 | with a nonzero normaliser the head bump has unity gain at DC and at Nyquist, and its gain at the centre frequency is A squared, the peak gain |
| LossFilterStage.LossFilter.constructor | src/DaisyLossFilter.cpp:3-8 | fs 48000, on, slot 0 active, no fade, stored parameters 0, zeroed FIRs |
| LossFilterStage.LossFilter.GetLatencySamples | src/DaisyLossFilter.cpp:27-31 | half the FIR order (35) while on, 0 while off |
| LossFilterStage.LossFilter.CalcHeadBumpCoeffs | src/DaisyLossFilter.cpp:68-95 | the target slot's biquad gets the HeadBump coefficients; its histories, the other slot and the FIRs stay |
| LossFilterStage.LossFilter.CalcFirCoeffs | src/DaisyLossFilter.cpp:97-139 | Hcoefs is the loss response, computedFir its inverse DFT, loaded into the target FIR only |
| LossFilterStage.LossFilter.DesignResponse | src/DaisyLossFilter.cpp:99-119 | the loop fills Hcoefs with the loss response |
| LossFilterStage.LossFilter.InverseDft | src/DaisyLossFilter.cpp:122-135 | the loop fills computedFir symmetrically; tap 0 keeps its old value |
| LossFilterStage.LossFilter.IdftValue | src/DaisyLossFilter.cpp:124-131 | the inner loop computes impulse-response value n |
| LossFilterStage.LossFilter.SetParameters | src/DaisyLossFilter.cpp:34-66 | bookkeeping and stored parameters follow UpdateCtl; only an accepted update designs into the back slot and sets the trigger, and the active slot is never touched |
| LossFilterStage.LossFilter.ApplyUpdate | src/DaisyLossFilter.cpp:45-65 | stores the parameters, then drops the update while a fade is pending or running, else designs into the back slot |
| LossFilterStage.LossFilter.DesignBack | src/DaisyLossFilter.cpp:55-65 | steps 1 to 4: FIR and head bump designed into the back slot, then the trigger set |
| LossFilterStage.LossFilter.StoreParams | src/DaisyLossFilter.cpp:46-49 | records the four parameters and changes nothing else |
| LossFilterStage.LossFilter.SetTrigger | src/DaisyLossFilter.cpp:65 | sets the fade request and changes nothing else |
| LossFilterStage.LossFilter.Prepare | src/DaisyLossFilter.cpp:10-25 | resets both slots, applies the defaults (15, 0.5, 0.5, 0.5), forces the design into the active slot and clears the trigger; a running fade is kept |
| LossFilterStage.LossFilter.ForceActive | src/DaisyLossFilter.cpp:21-24 | computedFir and the default head bump go into the active slot and the trigger is cleared |
| LossFilterStage.LossFilter.ResetAll | src/DaisyLossFilter.cpp:12-17 | stores the sample rate and resets both slots |
| LossFilterStage.LossFilter.LoadTaps | src/DaisyLossFilter.cpp:138 | computedFir becomes the taps of the target FIR; nothing else changes |
| LossFilterStage.LossFilter.ProcessBlock | src/DaisyLossFilter.cpp:142-205 | off: nothing changes; on: state and outputs are LossRun after StartFade; samples past blockSize untouched |
| LossFilterStage.LossFilter.RunSamples | src/DaisyLossFilter.cpp:166-205 | the sample loop computes LossRun over the block |
| LossFilterStage.LossFilter.RunStep | src/DaisyLossFilter.cpp:166-205 | one pass of the loop extends the run by one sample |
| LossFilterStage.LossFilter.ProcessAt | src/DaisyLossFilter.cpp:168-204 | output sample i is LossSample of input sample i; every other sample stays |
| LossFilterStage.LossFilter.Store | src/DaisyLossFilter.cpp:203-204 | writes one sample per channel and leaves the filter alone |
| LossFilterStage.LossFilter.StartFadeNow | src/DaisyLossFilter.cpp:147-163 | the trigger branch computes StartFade |
| LossFilterStage.LossFilter.ProcessSample | src/DaisyLossFilter.cpp:168-202 | the loop body computes LossSample |
| LossFilterStage.LossFilter.FadeTail | src/DaisyLossFilter.cpp:179-201 | the back slot, the mix and the countdown compute LossSample during a fade |
| LossFilterStage.LossFilter.AdvanceFade | src/DaisyLossFilter.cpp:195-200 | counts the fade down and swaps the active slot when it reaches 0 |
| LossFilterStage.LossFilter.ProcessSlot | src/DaisyLossFilter.cpp:175-176 | one slot's FIR then head bump compute SlotStep |
| DegradeSpec.NoiseGainAt | include/DaisyDegrade.h:41-51 | a ramped block starts at the old gain, and every gain of a block lies between the old and the new gain |
| DegradeSpec.NoiseBlock | include/DaisyDegrade.h:40-54 | a noise block has one sample per requested sample |
| DegradeSpec.NoiseAfter | include/DaisyDegrade.h:41-53 | after a block the ramp has reached the new gain; a steady block changes nothing |
| DegradeSpec.OnePoleDesign | include/DaisyDegrade.h:81-93 | calcCoefs gives b0 == b1 and, whenever a0 is nonzero, 2 b0 - a1 == 1 (unity gain at DC) |
| DegradeSpec.OnePoleRun | include/DaisyDegrade.h:103-108 | the filter loop yields one output per input |
| DegradeSpec.OnePoleRunSplit | include/DaisyDegrade.h:103-108 | running a block in two pieces, carrying the state, equals running it whole |
| DegradeSpec.OnePoleRunDc | include/DaisyDegrade.h:81-108 | a designed filter in its steady state passes a constant input unchanged and keeps its state |
| DegradeSpec.DcStep | include/DaisyDegrade.h:104-106 | one step of that steady state |
| DegradeSpec.Slew | include/DaisyDegrade.h:98-99 | more than 1 Hz away: a tenth of the way to the target; otherwise no move; never past the target |
| DegradeSpec.FilterReset | include/DaisyDegrade.h:69-75 | reset puts both frequencies at 20 kHz and the state at 0 |
| DegradeSpec.FilterSlew | include/DaisyDegrade.h:98-101 | the frequency moves by Slew, nothing else but the coefficients changes, and a frequency that did not move changes nothing |
| DegradeSpec.FilterProcess | include/DaisyDegrade.h:95-109 | one slew per call, one output per input, target and fs kept |
| DegradeSpec.LevelIn | include/DaisyDegrade.h:136 | the detector input is the non-negative mean of the two magnitudes |
| DegradeSpec.DetSetParams | include/DaisyDegrade.h:128-131 | only the attack and release coefficients change |
| DegradeSpec.DetPrepare | include/DaisyDegrade.h:122-126 | stores fs and clears the envelope |
| DegradeSpec.EnvStepBetween | include/DaisyDegrade.h:138-141 | with coefficients in [0, 1] one step lands between the input and the old envelope |
| DegradeSpec.EnvRun | include/DaisyDegrade.h:133-145 | one level per sample, only the envelope changes, and the detector keeps the last level written |
| DegradeSpec.EnvRunBounded | include/DaisyDegrade.h:133-145 | every level is non-negative and bounded by the larger of the start and the largest input |
| DegradeSpec.GainStep | src/DaisyDegrade.cpp:155 | one per-sample step leaves 99% of the distance to the target |
| DegradeSpec.GainRamp | src/DaisyDegrade.cpp:154-158 | n gains, the last of which is the gain kept |
| DegradeSpec.GainRampBetween | src/DaisyDegrade.cpp:154-158 | the slew approaches the target monotonically and never passes it |
| DegradeSpec.GainRun | src/DaisyDegrade.cpp:153-165 | within 1e-4 the target is used from the first sample; otherwise the slew |
| DegradeSpec.Scale | src/DaisyDegrade.cpp:156-163 | each sample is multiplied by its own gain |
| DegradeSpec.Noisy | src/DaisyDegrade.cpp:131-137 | noise is added to each sample, times the level when the envelope parameter is positive |
| DegradeSpec.ChannelOut | src/DaisyDegrade.cpp:129-139 | one output per input for a channel |
| DegradeSpec.ShortBlock | src/DaisyDegrade.cpp:114-166 | processShortBlock yields one output per input on both channels |
| DegradeSpec.ShortBlockGain | src/DaisyDegrade.cpp:114-166 | a chunk keeps the target gain, moves the current gain only towards it, and takes two draws per sample |
| DegradeSpec.ClampFreq | src/DaisyDegrade.cpp:61-63 | the target is at least 20 Hz, at most 0.49 fs when that is above 20 Hz, and unchanged when already in range |
| DegradeSpec.CookFreq | src/DaisyDegrade.cpp:56-66 | each drawn filter target lies in [20, 0.49 fs] |
| DegradeSpec.CookGainDb | src/DaisyDegrade.cpp:75-77 | the gain in dB is capped at +3 and otherwise -24 (0.1 depth) plus the drawn variance |
| DegradeSpec.Cook | src/DaisyDegrade.cpp:31-80 | cookParams sets both noise gains, moves only the filter targets (at least 20 Hz), keeps the envelope and current gain, and takes three draws |
| DegradeSpec.Chunks | src/DaisyDegrade.cpp:86-111 | a block has no chunks exactly when it is empty |
| DegradeSpec.ChunksPartition | src/DaisyDegrade.cpp:86-111 | the chunks cover the block exactly, each is non-empty and at most 2048, the first ends by the next boundary, and every later one starts on a boundary |
| DegradeSpec.ChunkStartsOnBoundary | src/DaisyDegrade.cpp:103-110 | after a chunk that reaches the boundary the counter restarts at 0 |
| DegradeSpec.DegStep | src/DaisyDegrade.cpp:101-110 | one pass advances the counter modulo 2048 and takes two draws per sample plus three at a boundary |
| DegradeSpec.DegRunOneChunk | src/DaisyDegrade.cpp:86-111 | a block within the control period is one pass |
| DegradeSpec.DegRunChunk | src/DaisyDegrade.cpp:101-110 | one pass is processShortBlock, then cookParams and a reset exactly at the boundary |
| DegradeSpec.DegRun | src/DaisyDegrade.cpp:82-112 | the counter stays in [0, 2048) and each channel gets one output per input |
| DegradeSpec.RunChunks | src/DaisyDegrade.cpp:87-111 | the loop over chunks keeps the counter in range and the lengths |
| DegradeSpec.FirstChunk | src/DaisyDegrade.cpp:91-110 | the first chunk runs to the block end or the next boundary |
| DegradeSpec.DegRunCounters | src/DaisyDegrade.cpp:86-111 | after a block the counter is (counter + len) mod 2048 and the draws used are two per sample plus three per boundary crossed |
| DegradeParts.Rand.constructor | include/DaisyDegrade.h:20-25 | a fresh generator starts at draw 0 of its stream |
| DegradeParts.Rand.NextFloat | include/DaisyDegrade.h:21-24 | nextFloat returns the next draw of the stream and advances by one |
| DegradeParts.DegradeNoise.constructor | include/DaisyDegrade.h:57-59 | both gains start at 0 |
| DegradeParts.DegradeNoise.Prepare | include/DaisyDegrade.h:32-34 | prepare zeroes both gains |
| DegradeParts.DegradeNoise.SetGain | include/DaisyDegrade.h:36-38 | only the gain being moved to changes |
| DegradeParts.DegradeNoise.ProcessBlock | include/DaisyDegrade.h:40-54 | the block is NoiseBlock (one draw per sample), the gains become NoiseAfter, the rest of the buffer is untouched |
| DegradeParts.DegradeFilter.constructor | include/DaisyDegrade.h:67 | the default constructor is reset at 48 kHz |
| DegradeParts.DegradeFilter.Reset | include/DaisyDegrade.h:69-75 | the state becomes FilterReset of the new rate |
| DegradeParts.DegradeFilter.SetFreq | include/DaisyDegrade.h:77-79 | only the target frequency changes |
| DegradeParts.DegradeFilter.CalcCoefs | include/DaisyDegrade.h:81-93 | only the coefficients change, to OnePoleDesign of the rate and frequency |
| DegradeParts.DegradeFilter.Process | include/DaisyDegrade.h:95-109 | the state and the filtered slice are FilterProcess of the old ones; nothing outside the slice changes |
| DegradeParts.DegradeFilter.Run | include/DaisyDegrade.h:103-108 | the slice becomes OnePoleRun of itself and z[1] its final state |
| DegradeParts.SimpleLevelDetector.constructor | include/DaisyDegrade.h:147-151 | the detector takes the math it is given |
| DegradeParts.SimpleLevelDetector.Prepare | include/DaisyDegrade.h:122-126 | the state becomes DetPrepare of the rate |
| DegradeParts.SimpleLevelDetector.SetParameters | include/DaisyDegrade.h:128-131 | the state becomes DetSetParams (only the coefficients change) |
| DegradeParts.SimpleLevelDetector.Process | include/DaisyDegrade.h:133-145 | the levels written and the new envelope are EnvRun of the two input slices |
| DegradeStage.DegradeProcessor.constructor | src/DaisyDegrade.cpp:3-8 | 48 kHz, enabled, all parameters 0, counter 0, unity target and current gain, sub-processors in their default state |
| DegradeStage.DegradeProcessor.Prepare | src/DaisyDegrade.cpp:10-20 | stores the rate, restarts the counter, resets both filters, clears both noises, prepares the detector, and leaves the gains and draws alone |
| DegradeStage.DegradeProcessor.SetParameters | src/DaisyDegrade.cpp:22-29 | stores the four parameters and the enable flag verbatim and changes nothing else |
| DegradeStage.DegradeProcessor.CookParams | src/DaisyDegrade.cpp:31-80 | the sub-processor state afterwards is Cook of the state before |
| DegradeStage.DegradeProcessor.CookFilters | src/DaisyDegrade.cpp:56-66 | two draws; each filter gets the target CookFreq of its own draw |
| DegradeStage.DegradeProcessor.CookGain | src/DaisyDegrade.cpp:75-79 | one draw; the target gain is the capped, varied dB level as a linear gain |
| DegradeStage.DegradeProcessor.CookedFreq | src/DaisyDegrade.cpp:57-64 | one draw; the result is CookFreq of that draw |
| DegradeStage.DegradeProcessor.ProcessBlock | src/DaisyDegrade.cpp:82-112 | disabled: nothing changes; enabled: the state, counter and both channels are DegRun of the old ones; samples past the block are untouched |
| DegradeStage.DegradeProcessor.Pass | src/DaisyDegrade.cpp:89-111 | one pass of the block loop moves at least one sample from the pending input to the output and keeps the outcome of the whole block |
| DegradeStage.DegradeProcessor.ChunkStep | src/DaisyDegrade.cpp:97-110 | one chunk of the loop is DegRun of the chunk alone; nothing outside it changes |
| DegradeStage.DegradeProcessor.AdvanceChunk | src/DaisyDegrade.cpp:103-110 | processShortBlock followed by the counter advance is DegRun of the chunk |
| DegradeStage.DegradeProcessor.Advance | src/DaisyDegrade.cpp:103-110 | the counter advances by the chunk, and at the 2048-sample boundary it restarts at 0 after cookParams |
| DegradeStage.DegradeProcessor.ProcessShortBlock | src/DaisyDegrade.cpp:114-166 | the new state and both chunks are ShortBlock of the old ones; nothing outside the chunk changes |
| DegradeStage.DegradeProcessor.ProcessChannels | src/DaisyDegrade.cpp:120-150 | the levels come from the clean chunk (EnvRun), then the left and the right channel each get ChannelOut, the right drawing after the left |
| DegradeStage.DegradeProcessor.ProcessChannel | src/DaisyDegrade.cpp:130-149 | one channel: its noise block, the noise added, its filter, one draw per sample |
| DegradeStage.DegradeProcessor.AddNoise | src/DaisyDegrade.cpp:131-137 | the chunk becomes Noisy of itself, with the level modulation only when the envelope is on |
| DegradeStage.DegradeProcessor.ApplyGain | src/DaisyDegrade.cpp:152-165 | both channels are scaled by GainRun's gains and the current gain becomes the gain it leaves |
| DegradeStage.DegradeProcessor.SlewGain | src/DaisyDegrade.cpp:153-158 | both channels are scaled by the slewed gains and the current gain becomes the last of them |
| DegradeStage.DegradeProcessor.HoldGain | src/DaisyDegrade.cpp:159-165 | both channels are scaled by the one settled gain |
| DegradeStage.CookOf | src/DaisyDegrade.cpp:31-80 | the state built field by field as cookParams does is Cook |
| DegradeStage.RunFromStart | src/DaisyDegrade.cpp:86-89 | before the first pass the outcome of the loop is DegRun of the whole block |
| DegradeStage.RunFromStep | src/DaisyDegrade.cpp:89-111 | the run of a block is the run of its first chunk followed by the run of the rest |
| DegradeStage.ShortBlockOf | src/DaisyDegrade.cpp:114-166 | the outcome assembled from the level run, both channels and the gain run is ShortBlock |
| DegradeStage.GainRampPrefix | src/DaisyDegrade.cpp:153-158 | the gain applied at sample i is the gain the slew holds after i + 1 steps |
| LinkwitzRiley.DesignDenominatorPositive | include/DaisyLinkwitzRiley.h:107 | the denominator 1 + R2 g + g^2 of h is positive for every g, so update() never divides by zero |
| LinkwitzRiley.DesignNormalised | include/DaisyLinkwitzRiley.h:104-108 | designed coefficients satisfy h (1 + R2 g + g^2) == 1 |
| LinkwitzRiley.SectionSplitsInput | include/DaisyLinkwitzRiley.h:63-71 | a normalised section splits its input: high-pass + R2 band-pass + low-pass == x |
| LinkwitzRiley.StepHighLow | include/DaisyLinkwitzRiley.h:60-85 | with designed coefficients, high + low == x - 2 R2 yB: the two outputs add up to the input up to the first section's band-pass term |
| LinkwitzRiley.StepSilence | include/DaisyLinkwitzRiley.h:60-85 | silence into cleared registers gives silence and keeps the registers cleared |
| LinkwitzRiley.SnapValue | include/DaisyLinkwitzRiley.h:91-98 | a register below 1e-9 in magnitude becomes 0, any other is kept |
| LinkwitzRiley.SnapRegsIdempotent | include/DaisyLinkwitzRiley.h:88-101 | after the sweep no register lies strictly between 0 and the threshold, and a second sweep changes nothing |
| LinkwitzRiley.SnapRegsChanges | include/DaisyLinkwitzRiley.h:95-98 | the sweep changes a register exactly when it is nonzero and below the threshold |
| LinkwitzRiley.LinkwitzRileyFilter.constructor | include/DaisyLinkwitzRiley.h:18-27 | no channels, 48 kHz, 2 kHz cutoff, coefficients designed for them |
| LinkwitzRiley.LinkwitzRileyFilter.SetCutoff | include/DaisyLinkwitzRiley.h:30-37 | below Nyquist (the assert), the cutoff is stored and the coefficients redesigned |
| LinkwitzRiley.LinkwitzRileyFilter.Prepare | include/DaisyLinkwitzRiley.h:40-50 | for a positive rate and one or two channels (the asserts): rate and channel count stored, coefficients redesigned, registers of the used channels cleared, the cutoff kept |
| LinkwitzRiley.LinkwitzRileyFilter.Reset | include/DaisyLinkwitzRiley.h:53-57 | the registers of every channel below numChannels are cleared, the others kept |
| LinkwitzRiley.LinkwitzRileyFilter.ProcessSample | include/DaisyLinkwitzRiley.h:60-85 | the outputs and the channel's new registers are Step of its old registers; the other channel is untouched |
| LinkwitzRiley.LinkwitzRileyFilter.SnapToZero | include/DaisyLinkwitzRiley.h:88-101 | each used channel's registers are swept by SnapRegs, the others kept |
| LinkwitzRiley.LinkwitzRileyFilter.SectionUpdate | include/DaisyLinkwitzRiley.h:63-71 | the statements of one section compute SectionStep |
| LinkwitzRiley.LinkwitzRileyFilter.Update | include/DaisyLinkwitzRiley.h:104-108 | the coefficients become Design of the stored cutoff and rate |
| InputFilterStage.RouteRun | src/DaisyInputFilters.cpp:48-68 | the sample loop of one channel yields one band sample and one sample of each discarded part per input |
| InputFilterStage.RouteRunSplit | src/DaisyInputFilters.cpp:48-68 | routing a block in two pieces, carrying the registers across, equals routing it whole |
| InputFilterStage.RouteRunAt | src/DaisyInputFilters.cpp:50-67 | sample n of each output is the step of the low-cut and then the high-cut crossover from the registers after the first n samples |
| InputFilterStage.PrefixRunSnoc | src/DaisyInputFilters.cpp:48-68 | one more sample extends a run by one step of each crossover |
| InputFilterStage.RouteRunSilence | src/DaisyInputFilters.cpp:48-68 | silence into cleared crossovers gives silence on all three outputs and keeps the registers cleared |
| InputFilterStage.RouteSample | src/DaisyInputFilters.cpp:50-64 | one sample: the low-cut filter's high output feeds the high-cut filter; the low-cut low output and the high-cut high output are the discarded parts |
| InputFilterStage.RouteLoop | src/DaisyInputFilters.cpp:48-68 | the buffer becomes the band, the scratch rows the discarded parts, and the crossovers the registers of the run |
| InputFilterStage.RouteBlock | src/DaisyInputFilters.cpp:48-71 | the routed channel, with both crossovers swept for denormals at the end |
| InputFilterStage.InputFilters.constructor | src/DaisyInputFilters.cpp:3-7 | filters and makeup off, 48 kHz, no channels, cuts at 20 Hz and 22 kHz, no delay lines |
| InputFilterStage.InputFilters.SetDelayLinePointers | src/DaisyInputFilters.cpp:10-14 | the two delay lines are linked as given |
| InputFilterStage.InputFilters.Prepare | src/DaisyInputFilters.cpp:16-36 | at most two channels; each visited channel has both crossovers cleared and designed for the stored cutoffs at the new rate, and its delay line, if any, emptied with delay 0; the others are untouched |
| InputFilterStage.InputFilters.PrepareChannel | src/DaisyInputFilters.cpp:23-34 | one channel of prepare: both crossovers designed and cleared, the delay line reset, the other channel untouched |
| InputFilterStage.InputFilters.PrepareFilter | src/DaisyInputFilters.cpp:23-27 | prepare(fs, 1) then setCutoff leaves the crossover designed for the cutoff with cleared registers |
| InputFilterStage.InputFilters.ProcessBlock | src/DaisyInputFilters.cpp:38-73 | enabled: each visited channel holds its band, the scratch rows its discarded parts, the crossovers the swept registers; disabled or unvisited: nothing changes |
| InputFilterStage.InputFilters.ProcessChannel | src/DaisyInputFilters.cpp:46-72 | one channel of processBlock is routed |
| InputFilterStage.InputFilters.ProcessBlockMakeup | src/DaisyInputFilters.cpp:75-102 | with filters and makeup on and a linked delay line, each visited channel gets the delayed sum of its discarded parts added, and the delay line's history grows by that sum; otherwise the channel is untouched |
| InputFilterStage.InputFilters.MakeupChannel | src/DaisyInputFilters.cpp:87-100 | one channel: write the makeup sum, read the delayed sample, add it |
| InputFilterStage.InputFilters.SetMakeupDelay | src/DaisyInputFilters.cpp:104-111 | each visited channel's delay line gets the delay; its history is kept |
| InputFilterStage.InputFilters.SetLowCut | src/DaisyInputFilters.cpp:113-118 | the cut is stored as given and the visited low-cut crossovers redesigned for it |
| InputFilterStage.InputFilters.SetHighCut | src/DaisyInputFilters.cpp:120-126 | the cut is clamped to 0.48 fs and the visited high-cut crossovers redesigned for it |
| InputFilterStage.InputFilters.SetEnabled | include/DaisyInputFilters.h:47 | the enable flag is stored and reported back by isEnabled |
| InputFilterStage.InputFilters.SetMakeupEnabled | include/DaisyInputFilters.h:48 | the makeup flag is stored and reported back by isMakeupEnabled |
| Tape.Crossfade | src/TapeProcessor.cpp:107-108 | fully dry gives the dry sample, fully wet the wet one, equal inputs pass, and a mix in [0, 1] lies between dry and wet |
| Tape.CrossfadeBetween | src/TapeProcessor.cpp:106-108 | a mix amount in [0, 1] keeps the linear crossfade between its two inputs |
| Tape.MixBlock | src/TapeProcessor.cpp:96-110 | every output sample is the crossfade of its dry and wet samples |
| Tape.MixBlockEndpoints | src/TapeProcessor.cpp:96-110 | dryWet 1 (the default) outputs the wet path, dryWet 0 the dry path |
| Tape.WetOut | src/TapeProcessor.cpp:49-58 | with the filters off the wet block is the input; with makeup off it is the band of the input filters |
| Tape.WetOutSilence | src/TapeProcessor.cpp:49-58 | a freshly prepared channel with makeup off turns silence into silence |
| Tape.TapeProcessor.View | src/TapeProcessor.cpp:49-58 | the view of a channel covers the block |
| Tape.TapeProcessor.Wet | src/TapeProcessor.cpp:49-58 | the wet path keeps the block length |
| Tape.TapeProcessor.Dry | src/TapeProcessor.cpp:83-93 | the dry path keeps the block length |
| Tape.TapeProcessor.constructor | include/TapeProcessor.h:25 | fully wet, no dry delay lines, input filters in their default state |
| Tape.TapeProcessor.SetDelayLinePointers | src/TapeProcessor.cpp:5-14 | the makeup pair goes to the input filters, the dry pair is kept |
| Tape.TapeProcessor.Init | src/TapeProcessor.cpp:16-32 | the input filters take the rate and two channels, with all four crossovers cleared and designed for the stored cutoffs at that rate, and each linked dry delay line is emptied with delay 0 |
| Tape.TapeProcessor.InitDry | src/TapeProcessor.cpp:21-31 | each linked dry delay line is emptied with delay 0 |
| Tape.TapeProcessor.ProcessBlock | src/TapeProcessor.cpp:34-64 | both output channels are MixBlock, at dryWet, of the dry path and the wet path of the input block; each channel the filters visit leaves its crossovers with the swept registers of its run and its scratch rows with the discarded parts, a skipped channel keeps them; each linked makeup line holds MakeupHistory at 300 samples when visited and at its old delay otherwise; each linked dry line is at 300 samples and grows by the input only when both are linked |
| Tape.TapeProcessor.BothPaths | src/TapeProcessor.cpp:40-58 | after the copy, the filters, latency compensation and makeup, the wet buffers hold WetOut, the dry buffers the dry path, and the crossovers, scratch rows and delay lines are as ProcessBlock states |
| Tape.TapeProcessor.WetPath | src/TapeProcessor.cpp:49-58 | from the copied buffers, the wet buffers end holding WetOut and the dry buffers the dry path, and the crossovers, scratch rows and delay lines end as ProcessBlock states |
| Tape.TapeProcessor.FilterStep | src/TapeProcessor.cpp:50 | the wet buffers become the band of each visited channel, its scratch rows the discarded parts and its crossovers the swept registers; a skipped channel keeps its crossovers and rows; the dry side and the makeup lines are untouched |
| Tape.TapeProcessor.RouteBoth | src/TapeProcessor.cpp:50 | the input filters over the wet pair: band, discarded parts and swept registers for each visited channel, nothing changed for a skipped one |
| Tape.TapeProcessor.CompensateAndMakeup | src/TapeProcessor.cpp:54-58 | after latency compensation and makeup the wet buffers hold WetOut, the dry buffers the dry path, the makeup and dry lines are as ProcessBlock states, and the crossovers and scratch rows are not touched |
| Tape.TapeProcessor.CompensateStep | src/TapeProcessor.cpp:54-55 | the visited makeup lines go to 300 samples, each linked dry line to 300 samples with its history grown by the input only when both are linked, the dry buffers hold the dry path, and the wet side is not touched |
| Tape.TapeProcessor.MakeupWrap | src/TapeProcessor.cpp:57-58 | after compensation, makeup leaves WetOut in the wet buffers and each makeup line holding MakeupHistory at its compensated delay; the dry side, crossovers and rows are not touched |
| Tape.TapeProcessor.MakeupStep | src/TapeProcessor.cpp:58 | the discarded parts come back through the makeup delay lines set to the total latency, giving WetOut; each makeup line's history grows by the discarded parts exactly when it takes part, and its delay stays |
| Tape.TapeProcessor.CopyStep | src/TapeProcessor.cpp:40-47 | the input block goes to both the dry and the wet buffers, and the views of both channels and the dry lines stay as they were |
| Tape.TapeProcessor.CopyKeep | src/TapeProcessor.cpp:41-47 | the input block goes to both buffer pairs, and the filters' routing runs, switches and makeup line settings stay as they were |
| Tape.TapeProcessor.CopyLoop | src/TapeProcessor.cpp:41-47 | the copy loop fills both buffer pairs with the input |
| Tape.TapeProcessor.LatencyCompensation | src/TapeProcessor.cpp:66-94 | the visited makeup lines and the linked dry lines get the fixed latency of 300 samples; only when both dry lines are linked do their histories grow by the dry block and the dry buffers become their reads |
| Tape.TapeProcessor.DryCompensation | src/TapeProcessor.cpp:79-93 | each linked dry line is set to 300 samples and grows by its dry block only when both are linked; the dry buffers hold the dry path |
| Tape.TapeProcessor.DelayBoth | src/TapeProcessor.cpp:84-93 | each dry buffer is written into its line and replaced by the reads after each write |
| Tape.TapeProcessor.DryWetMix | src/TapeProcessor.cpp:96-110 | the outputs are MixBlock of the dry and wet buffers, and the state the block settled in is not touched |
| Tape.TapeProcessor.SetLowCutFreq | include/TapeProcessor.h:48 | forwarded: the input filters hold the new low cut |
| Tape.TapeProcessor.SetHighCutFreq | include/TapeProcessor.h:49 | forwarded: the input filters hold the new high cut clamped to 0.48 fs |
| Tape.TapeProcessor.SetFiltersEnabled | include/TapeProcessor.h:50 | forwarded: the input filters' enable flag |
| Tape.TapeProcessor.SetMakeupEnabled | include/TapeProcessor.h:51 | forwarded: the input filters' makeup flag |
| Tape.TapeProcessor.SetDryWet | include/TapeProcessor.h:52 | the mix amount is stored as given |
| DelayLines.DelayLine.constructor | src/DaisyTape.cpp:12-16 | a delay line starts empty with delay 0 and the given read rules |
| DelayLines.DelayLine.Init | src/DaisyInputFilters.cpp:32 | Init() empties the history |
| DelayLines.DelayLine.SetDelay | src/DaisyInputFilters.cpp:33 | SetDelay stores the delay and nothing else |
| DelayLines.DelayLine.Write | src/DaisyInputFilters.cpp:95 | Write appends one sample to the history |
| DelayLines.DelayLine.Read | src/DaisyInputFilters.cpp:96 | Read returns the interpolated value of the history at the stored delay and changes nothing |
| DelayLines.DelayLine.ReadHermite | src/DaisyAzimuthProc.cpp:91 | ReadHermite(d) returns the cubic read of the history at delay d and changes nothing |
| DelayLines.ReadsAfterWrites | src/DaisyInputFilters.cpp:89-100 | one read per write: the n-th read sees the first n + 1 new samples appended to the history |
| Azimuth.InchesToMeters | src/DaisyAzimuthProc.cpp:5-7 | inches divided by 39.370078740157: the result times that factor gives the inches back, and only 0 maps to 0 |
| Azimuth.DegreesToRadians | src/DaisyAzimuthProc.cpp:10-12 | the radians times 180 are the degrees times pi |
| Azimuth.SmoothCoeff | include/DaisyAzimuthProc.h:21-23 | 1 / (time fs) capped at 1: never above 1, positive for a positive product, the exact reciprocal when the product is at least 1, and 1 when it is at most 1 |
| Azimuth.SmoothStep | include/DaisyAzimuthProc.h:39-47 | within 1e-4 of the target it snaps to the target; otherwise the remaining distance shrinks by the factor 1 - coeff |
| Azimuth.StepBetween | include/DaisyAzimuthProc.h:39-47 | with coeff in [0, 1] a step lands between the old value and the target and never moves away from the target |
| Azimuth.StepFixedPoint | include/DaisyAzimuthProc.h:41-42 | a smoother at its target stays there |
| Azimuth.SmoothedSplit | include/DaisyAzimuthProc.h:39-47 | m steps then j steps are m + j steps |
| Azimuth.SmoothedFixedPoint | include/DaisyAzimuthProc.h:39-47 | a run started at the target stays at the target |
| Azimuth.SmoothedHoldsTarget | include/DaisyAzimuthProc.h:39-47 | once the target is reached it is kept while the target is unchanged |
| Azimuth.SmoothedBetween | include/DaisyAzimuthProc.h:39-47 | with coeff in [0, 1] every value of a run lies between the start and the target, and the distance never grows |
| Azimuth.SmoothedCoeffOne | include/DaisyAzimuthProc.h:21-23 | a coefficient of 1 (smoothing time at most one sample) reaches the target on the first step |
| Azimuth.DelayedChannel | src/DaisyAzimuthProc.cpp:48-49 | the left channel is delayed exactly when the angle is negative, otherwise the right |
| Azimuth.DelaySamples | src/DaisyAzimuthProc.cpp:51-58 | corrected delay: the delay in samples times the tape speed in m/s is the path difference times fs (distance over speed) |
| Azimuth.AsWrittenGrowsWithSpeed | src/DaisyAzimuthProc.cpp:58 | as written, doubling the tape speed doubles the delay |
| Azimuth.AsWrittenMissesTravelTime | src/DaisyAzimuthProc.cpp:58 | as written, at 15 ips and 48 kHz the delay is not the travel time of any nonzero path difference |
| Azimuth.DelayHalvesAtDoubleSpeed | src/DaisyAzimuthProc.cpp:51-58 | corrected: twice the tape speed gives half the delay |
| Azimuth.NegationSwapsTargets | src/DaisyAzimuthProc.cpp:46-67 | negating a nonzero angle swaps the two channels' targets |
| Azimuth.OneChannelUndelayed | src/DaisyAzimuthProc.cpp:65-66 | the channel that is not delayed gets the bare offset 1.0 |
| Azimuth.TargetAtLeastOne | src/DaisyAzimuthProc.cpp:58-66 | with a non-negative sine, speed and rate every target is at least the zero-latency offset 1.0 |
| Azimuth.AzimuthReads | src/DaisyAzimuthProc.cpp:82-92 | one output per input sample |
| Azimuth.SettledReads | src/DaisyAzimuthProc.cpp:82-92 | a settled smoother reads every sample at the fixed target delay |
| Azimuth.BlockLen | src/DaisyAzimuthProc.cpp:78 | a loop up to blockSize visits blockSize samples, none when it is negative |
| Azimuth.AzimuthSmoother.constructor | include/DaisyAzimuthProc.h:51-54 | the three members start at the values given |
| Azimuth.AzimuthSmoother.Init | include/DaisyAzimuthProc.h:21-27 | the coefficient becomes SmoothCoeff and current and target 0 |
| Azimuth.AzimuthSmoother.SetTarget | include/DaisyAzimuthProc.h:29-31 | only the target changes |
| Azimuth.AzimuthSmoother.SetCurrent | include/DaisyAzimuthProc.h:34-37 | current and target both jump to the value |
| Azimuth.AzimuthSmoother.Process | include/DaisyAzimuthProc.h:39-47 | current becomes SmoothStep of the old current and is returned |
| Azimuth.AzimuthSmoother.GetCurrent | include/DaisyAzimuthProc.h:49 | returns current |
| Azimuth.RunChannel | src/DaisyAzimuthProc.cpp:76-92 | no delay line: the input is copied; otherwise the outputs are AzimuthReads, the smoother has advanced n steps, the history grows by the input; samples past n are untouched |
| Azimuth.AzimuthProc.constructor | include/DaisyAzimuthProc.h:61 | two distinct fresh smoothers, no delay lines |
| Azimuth.AzimuthProc.Prepare | src/DaisyAzimuthProc.cpp:18-38 | stores the rate, clears each linked delay line, and settles both smoothers at 1.0 with the 50 ms coefficient |
| Azimuth.AzimuthProc.SetDelayLinePointers | src/DaisyAzimuthProc.cpp:40-44 | the two delay lines are linked as given |
| Azimuth.AzimuthProc.SetAzimuthAngle | src/DaisyAzimuthProc.cpp:46-67 | each channel's smoother targets ChannelTarget (computed with the corrected delay) |
| Azimuth.AzimuthProc.ProcessBlock | src/DaisyAzimuthProc.cpp:69-94 | each channel is copied when its delay line is absent and otherwise is RunChannel's smoothed cubic reads; each line's history grows by the block while its delay setting stays; samples past the block are untouched |

## Left out

- Floating-point rounding, NaN, infinities and denormals are not modelled: samples are exact reals. `snapToZero`'s threshold test is modelled as written.
- `DspMath.Div` returns 0 for a zero divisor, where float division gives an infinity or NaN. This affects the filter designs, the loss-filter DFT and the azimuth delay at zero tape speed.
- The transcendental functions are uninterpreted. No property depends on their values, except where a lemma names a sign it requires, such as the sine in `Azimuth.TargetAtLeastOne`.
- The daisysp delay line is not part of this model. Its interpolation and buffer size are uninterpreted or not enforced, and `DelayLine.Init` only empties the history.
- `DegradeParts.Rand`: `rand() / RAND_MAX` is an arbitrary stream of reals. Its range [0, 1] is not assumed.
- Only one control thread is modelled. The main loop and the audio callback share `triggerFade`, the stored parameters and the enable flags without synchronisation, and the model treats their calls as interleaved one at a time.
- src/DaisyTape.cpp is not part of this model. It holds hardware set-up, ADC reads, knob mapping, logging and the main loop, and it calls `TapeProcessor` members that include/TapeProcessor.h does not declare.
- Members that C++ leaves indeterminate are given the constructor's arguments or zero. This covers the azimuth smoothers, `AzimuthProc::fs` and its delay pointers. The level detector's `fs`, envelope and coefficients stay unspecified until `Prepare`.
- The `SAFE_MAX_BLOCK_SIZE` and `DEG_BLOCK_SIZE` bounds are preconditions, as the buffer sizes demand. Where the source loops `i < blockSize`, a negative `blockSize` is required away, except in `Azimuth.AzimuthProc.ProcessBlock`, where it visits nothing.
- The two delay lines of a stage must be distinct objects, as must the output arrays of a block call, so that writing one channel never changes the other. The source does not check this.
- `LinkwitzRiley.LinkwitzRileyFilter.SetCutoff` and `SetLowCut` require the cutoff to be below Nyquist. This is the source's assert, and the model does not say what happens when it fails.
- The two-channel loops of `InputFilters` and `TapeProcessor` are written out channel by channel, and `DegradeProcessor`'s `filters[2]`/`noises[2]` are two named fields each.
- `Tape.TapeProcessor.SetDryWet` stores the value unclamped, as the source does. `Crossfade` lies between dry and wet only for a mix amount in [0, 1].
- `LossFilterStage.LossFilter.Prepare` does not cancel a fade that is already running, as in the source.
- `Azimuth.AzimuthProc.SetAzimuthAngle`: an angle of 0 still targets channel 1, with `DelaySamples(0) + 1`. With the real sine that is 1.0. With the uninterpreted sine, `Azimuth.NegationSwapsTargets` holds only for nonzero angles.
- `Azimuth.AzimuthProc.SetAzimuthAngle` uses the corrected delay; see Findings.

## Findings

| source | as written | input that shows it | evidently intended | confidence | as-written member | corrected member |
|---|---|---|---|---|---|---|
| src/DaisyAzimuthProc.cpp:58 | `delaySamp = (delayDist * tapeSpeed) * fs` multiplies the path difference (m) by the tape speed (m/s) | angle 1°, 15 ips, 48 kHz: about 2.03 samples, where the tape needs about 13.96 samples to cover the path difference; doubling the speed doubles the delay | `delayDist / tapeSpeed * fs`, the travel time of the path difference in samples | high (dimensional analysis), not executed | `Azimuth.DelaySamplesAsWritten` (with `Azimuth.AsWrittenGrowsWithSpeed`, `Azimuth.AsWrittenMissesTravelTime`) | `Azimuth.DelaySamples` (with `Azimuth.DelayHalvesAtDoubleSpeed`), used by `Azimuth.AzimuthProc.SetAzimuthAngle` |
