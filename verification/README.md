# Musicrr: audio chain, remote-control server and web remote

Musicrr is an Android music player. This project models four parts of it in Dafny and proves properties of the model.

- **Audio processors.** These stages sit in the player's audio path. Each takes 16-bit little-endian PCM in a byte buffer, decodes it to floats in a scratch array, transforms it, and encodes it back into an output buffer.
  - `BiquadFilter`: one second-order IIR section.
  - `ParametricEQProcessor`: a cascade of biquad bands, then a preamp and a peak limiter.
  - `ReplayGainProcessor`: track or album gain, with or without the limiter.
  - `CrossfadeMixer`: linear fade-out of the current track and fade-in of the next.
- **Remote-control server.**
  - `TokenManager`: pairing tokens and access tokens in the app's preferences.
  - `ApiRouter`: the REST API behind a bearer token.
  - `WebSocketHandler`: the socket upgrade, the client table, broadcasts and commands.
  - `MusicrrWebServer`: routing by URI prefix to the static web UI, the API or the socket handler.
- **Tag clean-up** in `MetadataExtractor`: the track number read from the title, and blank tags turned into missing ones.
- **The browser remote** (`app.js`):
  - the state reducer fed by socket events;
  - the reconnect counter;
  - the time and progress read-outs;
  - the choice between a socket frame and a REST call for a command;
  - the handling of a 401 reply.

## How the model is organised

- Each file is one module. The layers are:
  - `Optional` and `Text`: option type and string helpers;
  - `Pcm`: sample codec, clamp and limiter;
  - `ByteBuffers`: a `java.nio.ByteBuffer` with position and limit over an array;
  - `Stage`: what the three processors share;
  - `Biquad`, `Equalizer`, `ReplayGain`, `Crossfade`: the processors;
  - `Http`, `Tokens`, `Router`, `Sockets`, `WebServer`: the server side;
  - `Metadata`: tag clean-up;
  - `RemoteUi`: the browser remote.
- Processors, the token manager, the socket handler, the server and the remote are classes. Their methods update fields in place, as the source does. Each method is proved against a function of the old state.
  - `GetOutput` is specified by a `Decide` function that says whether the call answers empty, copies the pending bytes, rewrites them, or overruns the scratch array.
  - An overrun is the `ArrayIndexOutOfBoundsException` the decode loop raises. `GetOutput` then answers `null`, with the scratch array and the input position as the exception leaves them.
  - The class's `Answered` predicate ties the returned buffer and the new state to that decision.
- The preferences store is a `map` from key to a typed value. Time (`now`), the random draws and the host maths are parameters.
  - The host maths are the `Trig` record (cos w, sin w, A and √A for a band) and a `pow10` function.
- Floats are `real`. `Float` rounding is not modelled. Integer conversions are written out:
  - `toInt` truncates toward zero (`Pcm.Trunc`);
  - the `Int` overflow in the crossfade length wraps (`Crossfade.WrapInt32`), and the mixer uses the wrapped length (`Crossfade.FadeDurationAsWritten`);
  - JavaScript's `%` truncates (`RemoteUi.JsRem`).
- JavaScript values are a small `JsValue` datatype. Reading a property of `undefined` or `null` throws. The model treats a throw as an update that stops part-way.

## Model

| member | source | states |
|---|---|---|
| Pcm.ShortFromBytes | android/app/src/main/kotlin/com/haasele/musicrr/dsp/ParametricEQProcessor.kt:135-137 | two little-endian bytes read as a signed short lie in −32768..32767 |
| Pcm.ShortToBytes | android/app/src/main/kotlin/com/haasele/musicrr/dsp/ParametricEQProcessor.kt:163-165 | a short is written as two bytes that read back as the same short |
| Pcm.Dequantise | android/app/src/main/kotlin/com/haasele/musicrr/dsp/ParametricEQProcessor.kt:137 | short / 32768 lies in [−1, 1) |
| Pcm.DecodeShorts | android/app/src/main/kotlin/com/haasele/musicrr/dsp/ParametricEQProcessor.kt:135-138 | decoding n shorts gives n amplitudes, each in [−1, 1) |
| Pcm.Clamp | android/app/src/main/kotlin/com/haasele/musicrr/dsp/ParametricEQProcessor.kt:164 | `coerceIn`: the result lies in [lo, hi], equals x inside, and is the nearer bound outside |
| Pcm.Trunc | android/app/src/main/kotlin/com/haasele/musicrr/dsp/ParametricEQProcessor.kt:164 | `toInt` truncates toward zero: it brackets x from below for x ≥ 0 and from above for x < 0 |
| Pcm.ToShort | android/app/src/main/kotlin/com/haasele/musicrr/dsp/ParametricEQProcessor.kt:164 | clamp, ×32767, truncate: the short lies in −32767..32767 and keeps the sign of the amplitude |
| Pcm.EncodeShorts | android/app/src/main/kotlin/com/haasele/musicrr/dsp/ParametricEQProcessor.kt:161-166 | encoding writes exactly two bytes per amplitude |
| Pcm.EncodedAt | android/app/src/main/kotlin/com/haasele/musicrr/dsp/ParametricEQProcessor.kt:161-166 | bytes 2i and 2i+1 of the encoding are amplitude i's short, in order |
| Pcm.EncodeSnoc | android/app/src/main/kotlin/com/haasele/musicrr/dsp/ParametricEQProcessor.kt:161-166 | encoding one more amplitude appends its two bytes |
| Pcm.SampleOfShort | android/app/src/main/kotlin/com/haasele/musicrr/dsp/ParametricEQProcessor.kt:137 | decoding the two bytes of a short gives short / 32768 |
| Pcm.DecodeEncoded | android/app/src/main/kotlin/com/haasele/musicrr/dsp/ParametricEQProcessor.kt:135-138 | decoding an encoding gives each amplitude back quantised to a short over 32768 |
| Pcm.RequantisationShrinksFullScale | android/app/src/main/kotlin/com/haasele/musicrr/dsp/ParametricEQProcessor.kt:137 | decode divides by 32768 and encode multiplies by 32767, so full-scale 32767 returns as 32766 and −1.0 as −32767 |
| Pcm.Peak | android/app/src/main/kotlin/com/haasele/musicrr/dsp/ParametricEQProcessor.kt:175-180 | the limiter's first pass: a non-negative bound on every magnitude that is 0 or one of them |
| Pcm.ClampAll | android/app/src/main/kotlin/com/haasele/musicrr/dsp/ParametricEQProcessor.kt:189-192 | every amplitude clamped into [−1, 1], length kept |
| Pcm.ScaledWithinThreshold | android/app/src/main/kotlin/com/haasele/musicrr/dsp/ParametricEQProcessor.kt:183-187 | scaling by threshold/peak brings any sample within 0.95 and keeps its sign |
| Pcm.LimitedAt | android/app/src/main/kotlin/com/haasele/musicrr/dsp/ParametricEQProcessor.kt:174-194 | the limiter's output at i: scaled by 0.95/peak and clamped when the peak exceeds 0.95, else only clamped |
| Pcm.LimitedWithinThreshold | android/app/src/main/kotlin/com/haasele/musicrr/dsp/ParametricEQProcessor.kt:174-194 | after the limiter every magnitude is at most 0.95 |
| Pcm.LimitedKeepsSign | android/app/src/main/kotlin/com/haasele/musicrr/dsp/ParametricEQProcessor.kt:174-194 | the limiter never flips or zeroes a sample's sign |
| Pcm.LimitedQuietIsIdentity | android/app/src/main/kotlin/com/haasele/musicrr/dsp/ParametricEQProcessor.kt:188-192 | a block whose peak is within the threshold passes the limiter unchanged |
| Pcm.ThresholdShort | android/app/src/main/kotlin/com/haasele/musicrr/dsp/ParametricEQProcessor.kt:164 | an amplitude within 0.95 encodes to a short within ±31128 |
| Pcm.LimitedShortsBounded | android/app/src/main/kotlin/com/haasele/musicrr/dsp/ParametricEQProcessor.kt:156-166 | with the limiter on, every written short lies within ±31128 |
| ByteBuffers.ByteBuffer.Allocate | android/app/src/main/kotlin/com/haasele/musicrr/dsp/ParametricEQProcessor.kt:92-93 | `allocateDirect`: a zeroed array, position 0 and limit = capacity |
| ByteBuffers.ByteBuffer.Clear | android/app/src/main/kotlin/com/haasele/musicrr/dsp/ParametricEQProcessor.kt:161 | `clear`: position 0 and limit = capacity, contents kept |
| ByteBuffers.ByteBuffer.Flip | android/app/src/main/kotlin/com/haasele/musicrr/dsp/ParametricEQProcessor.kt:169 | `flip`: the limit becomes the old position and the position 0 |
| ByteBuffers.ByteBuffer.Put | android/app/src/main/kotlin/com/haasele/musicrr/dsp/ParametricEQProcessor.kt:110 | `put(src)`: src's pending bytes are copied at the position, both positions advance, the rest is kept |
| ByteBuffers.ByteBuffer.GetShort | android/app/src/main/kotlin/com/haasele/musicrr/dsp/ParametricEQProcessor.kt:137 | `getShort`: the little-endian short at the position, which advances by 2 |
| ByteBuffers.ByteBuffer.PutShort | android/app/src/main/kotlin/com/haasele/musicrr/dsp/ParametricEQProcessor.kt:165 | `putShort`: two bytes written at the position, which advances by 2, the rest kept |
| ByteBuffers.DecodeInto | android/app/src/main/kotlin/com/haasele/musicrr/dsp/ParametricEQProcessor.kt:135-138 | the decode loop fills the front of the scratch array with the decoded pending shorts and leaves the tail |
| ByteBuffers.EncodeFrom | android/app/src/main/kotlin/com/haasele/musicrr/dsp/ParametricEQProcessor.kt:161-166 | the encode loop appends the encoding of the first `count` floats at the output's position |
| Stage.Enqueue | android/app/src/main/kotlin/com/haasele/musicrr/dsp/ParametricEQProcessor.kt:101-111 | `queueInput`: the source is appended when it fits; otherwise nothing changes |
| Stage.PassThrough | android/app/src/main/kotlin/com/haasele/musicrr/dsp/ReplayGainProcessor.kt:99-104 | the disabled path: the output holds exactly the input's pending bytes and the input is cleared |
| Stage.WriteBack | android/app/src/main/kotlin/com/haasele/musicrr/dsp/ParametricEQProcessor.kt:161-169 | the output holds exactly the encoding of the block and the input is cleared |
| Stage.AllocateBuffers | android/app/src/main/kotlin/com/haasele/musicrr/dsp/ParametricEQProcessor.kt:91-94 | two distinct byte buffers of 8 × rate × channels bytes each and a float array of 2 × rate × channels |
| Stage.FrameCount | android/app/src/main/kotlin/com/haasele/musicrr/dsp/ParametricEQProcessor.kt:128 | `remaining / (2 × channels)`: whole frames whose shorts fit, leaving less than one frame unread |
| Stage.AsWrittenGuardOverrunsStereo | android/app/src/main/kotlin/com/haasele/musicrr/dsp/ParametricEQProcessor.kt:128-138 | in stereo the guard as written admits a full input buffer whose decode would write twice the scratch length |
| Stage.GuardsAgreeOnMono | android/app/src/main/kotlin/com/haasele/musicrr/dsp/ParametricEQProcessor.kt:130-132 | with one channel the guard as written and the corrected one agree |
| Stage.OverrunWindow | android/app/src/main/kotlin/com/haasele/musicrr/dsp/ParametricEQProcessor.kt:128-138 | where the frame guard passes but the floats do not fit, there are at least two channels and more shorts pending than the scratch array holds |
| Stage.DecodeOverrun | android/app/src/main/kotlin/com/haasele/musicrr/dsp/ParametricEQProcessor.kt:134-138 | the overrunning decode loop fills the whole scratch array with the first shorts and consumes one short more before its store fails |
| Stage.QueueThenReadAsWritten | android/app/src/main/kotlin/com/haasele/musicrr/dsp/ParametricEQProcessor.kt:101-124 | after `configure` and one `queueInput`, the drain reads only the zero bytes after the queued ones |
| Stage.QueueThenReadFlipped | android/app/src/main/kotlin/com/haasele/musicrr/dsp/ParametricEQProcessor.kt:101-124 | flipping before the drain makes it read exactly the queued bytes |
| Biquad.PeakFeedforwardMatchesFeedback | android/app/src/main/kotlin/com/haasele/musicrr/dsp/BiquadFilter.kt:38-49 | in a peak design the normalised b1 equals a1, and a1 × a0 = −2 cos w |
| Biquad.UnityGainDesignsAreTransparent | android/app/src/main/kotlin/com/haasele/musicrr/dsp/BiquadFilter.kt:28-113 | at 0 dB (A = 1) every shape normalises to b0 = 1, b1 = a1, b2 = a2, a transparent section |
| Biquad.HistorySplit | android/app/src/main/kotlin/com/haasele/musicrr/dsp/BiquadFilter.kt:121-131 | running over s + u leaves the history that running over u leaves after s |
| Biquad.FilteredSplit | android/app/src/main/kotlin/com/haasele/musicrr/dsp/BiquadFilter.kt:121-131 | streaming: filtering s + u gives filtering s, then u from the history s left |
| Biquad.TransparentFilter | android/app/src/main/kotlin/com/haasele/musicrr/dsp/BiquadFilter.kt:121-131 | a transparent section from a balanced history outputs its input unchanged and stays balanced |
| Biquad.BiquadFilter.constructor | android/app/src/main/kotlin/com/haasele/musicrr/dsp/BiquadFilter.kt:9-23 | identity coefficients, silent history, rate 44100, not configured |
| Biquad.BiquadFilter.Configure | android/app/src/main/kotlin/com/haasele/musicrr/dsp/BiquadFilter.kt:28-113 | the coefficients become the normalised design, the history is silent, the filter configured |
| Biquad.BiquadFilter.ConfigurePeak | android/app/src/main/kotlin/com/haasele/musicrr/dsp/BiquadFilter.kt:28-53 | the peak design, normalised by a0, from a silent history |
| Biquad.BiquadFilter.ConfigureLowShelf | android/app/src/main/kotlin/com/haasele/musicrr/dsp/BiquadFilter.kt:58-83 | the low-shelf design, normalised by a0, from a silent history |
| Biquad.BiquadFilter.ConfigureHighShelf | android/app/src/main/kotlin/com/haasele/musicrr/dsp/BiquadFilter.kt:88-113 | the high-shelf design, normalised by a0, from a silent history |
| Biquad.BiquadFilter.Step | android/app/src/main/kotlin/com/haasele/musicrr/dsp/BiquadFilter.kt:122-131 | one output of the recurrence; the input and output are shifted into the history |
| Biquad.BiquadFilter.Process | android/app/src/main/kotlin/com/haasele/musicrr/dsp/BiquadFilter.kt:118-133 | configured: the array becomes the recurrence's outputs over its old contents, the history the one after them; unconfigured: nothing changes |
| Biquad.BiquadFilter.ProcessInterleaved | android/app/src/main/kotlin/com/haasele/musicrr/dsp/BiquadFilter.kt:138-158 | one history runs across the whole interleaved array, which becomes the outputs; nothing happens unconfigured or for channelCount < 1 |
| Biquad.BiquadFilter.Reset | android/app/src/main/kotlin/com/haasele/musicrr/dsp/BiquadFilter.kt:163-168 | the history is silent; the coefficients are kept |
| Biquad.BiquadFilter.IsConfigured | android/app/src/main/kotlin/com/haasele/musicrr/dsp/BiquadFilter.kt:173 | reports whether a design was installed |
| Equalizer.BandShapeRanges | android/app/src/main/kotlin/com/haasele/musicrr/dsp/ParametricEQProcessor.kt:63-76 | low shelf below 100 Hz, high shelf above 10 kHz, peak from 100 Hz to 10 kHz inclusive |
| Equalizer.BandDesigns | android/app/src/main/kotlin/com/haasele/musicrr/dsp/ParametricEQProcessor.kt:55-80 | one design per band, in band order |
| Equalizer.Cascade | android/app/src/main/kotlin/com/haasele/musicrr/dsp/ParametricEQProcessor.kt:141-147 | the bands one after another, each filtering what the previous one wrote, length kept |
| Equalizer.TransparentCascade | android/app/src/main/kotlin/com/haasele/musicrr/dsp/ParametricEQProcessor.kt:141-147 | transparent bands from balanced histories leave the samples unchanged |
| Equalizer.UnityGainBandsAreTransparent | android/app/src/main/kotlin/com/haasele/musicrr/dsp/ParametricEQProcessor.kt:55-80 | freshly designed 0 dB bands leave every signal unchanged |
| Equalizer.NoOutputIff | android/app/src/main/kotlin/com/haasele/musicrr/dsp/ParametricEQProcessor.kt:117-132 | `getOutput` answers empty exactly when a buffer, the input bytes or the format is missing, or the frame count exceeds the scratch length |
| Equalizer.OverrunIff | android/app/src/main/kotlin/com/haasele/musicrr/dsp/ParametricEQProcessor.kt:126-138 | `getOutput` throws exactly when the frame guard passes but frames × channels exceed the scratch length; that needs two or more channels, and the scratch array then holds the first shorts |
| Equalizer.CorrectedNoOutputIff | android/app/src/main/kotlin/com/haasele/musicrr/dsp/ParametricEQProcessor.kt:128-138 | with the guard on frames × channels the call never overruns, answers empty exactly when the floats do not fit, and processes at most the scratch length |
| Equalizer.CorrectedAgreesUnlessOverrun | android/app/src/main/kotlin/com/haasele/musicrr/dsp/ParametricEQProcessor.kt:128-138 | the corrected decision equals the one as written except where that one overruns, and there it answers empty |
| Equalizer.ProcessedBlock | android/app/src/main/kotlin/com/haasele/musicrr/dsp/ParametricEQProcessor.kt:126-138 | a processed call decodes whole frames, leaves under one frame unread and overwrites only the front of the scratch array |
| Equalizer.LimitedBlockBounded | android/app/src/main/kotlin/com/haasele/musicrr/dsp/ParametricEQProcessor.kt:155-166 | with the limiter on, every short the block writes lies within ±31128 |
| Equalizer.MonoOutputIgnoresFilters | android/app/src/main/kotlin/com/haasele/musicrr/dsp/ParametricEQProcessor.kt:141-147 | with one channel each band filters a copy, so the output is what it would be with no bands |
| Equalizer.TransparentBandsOnlyApplyPreamp | android/app/src/main/kotlin/com/haasele/musicrr/dsp/ParametricEQProcessor.kt:140-158 | with transparent bands the block only applies the preamp and the limiter, for any channel count |
| Equalizer.StaleTailEntersHistory | android/app/src/main/kotlin/com/haasele/musicrr/dsp/ParametricEQProcessor.kt:141-147 | with several channels a band's history ends with the last float of the whole scratch array, not of the decoded block |
| Equalizer.IntendedBlock | android/app/src/main/kotlin/com/haasele/musicrr/dsp/ParametricEQProcessor.kt:134-158 | the corrected block: the bands filter exactly the decoded samples, the tail is untouched |
| Equalizer.IntendedBlocksStream | android/app/src/main/kotlin/com/haasele/musicrr/dsp/ParametricEQProcessor.kt:141-147 | two corrected blocks in a row filter like one block over both decoded runs, outputs and histories alike |
| Equalizer.IntendedBlockIsMultiChannelPathOnBlock | android/app/src/main/kotlin/com/haasele/musicrr/dsp/ParametricEQProcessor.kt:141-158 | the corrected block is the source's multi-channel path over the decoded samples alone |
| Equalizer.CascadeSplit | android/app/src/main/kotlin/com/haasele/musicrr/dsp/ParametricEQProcessor.kt:141-147 | a cascade streams: over s + u it gives s's outputs, then u's from the histories s left |
| Equalizer.CascadeHistoriesSplit | android/app/src/main/kotlin/com/haasele/musicrr/dsp/ParametricEQProcessor.kt:141-147 | the cascade's histories after s + u are those after u from where s left them |
| Equalizer.ProcessCopy | android/app/src/main/kotlin/com/haasele/musicrr/dsp/ParametricEQProcessor.kt:143 | filtering a slice copy changes only the band's history, to the one after the copied samples |
| Equalizer.RunFiltersMono | android/app/src/main/kotlin/com/haasele/musicrr/dsp/ParametricEQProcessor.kt:141-143 | with one channel every band's history advances over the same unfiltered samples |
| Equalizer.RunFiltersInterleaved | android/app/src/main/kotlin/com/haasele/musicrr/dsp/ParametricEQProcessor.kt:141-147 | with several channels the array becomes the cascade over its old contents and every band holds its cascade history |
| Equalizer.ApplyPreamp | android/app/src/main/kotlin/com/haasele/musicrr/dsp/ParametricEQProcessor.kt:150-153 | the first `count` floats are multiplied by the preamp gain, the rest kept |
| Equalizer.PeakOf | android/app/src/main/kotlin/com/haasele/musicrr/dsp/ParametricEQProcessor.kt:175-180 | the first pass returns the peak magnitude of the block |
| Equalizer.LimitSamples | android/app/src/main/kotlin/com/haasele/musicrr/dsp/ParametricEQProcessor.kt:174-194 | the block becomes the limiter's output, the rest kept |
| Equalizer.ResetFilters | android/app/src/main/kotlin/com/haasele/musicrr/dsp/ParametricEQProcessor.kt:201 | every band's history becomes silent; the designs are kept |
| Equalizer.NewFilter | android/app/src/main/kotlin/com/haasele/musicrr/dsp/ParametricEQProcessor.kt:59-76 | a new configured filter holding its band's design from a silent history |
| Equalizer.BuildFilters | android/app/src/main/kotlin/com/haasele/musicrr/dsp/ParametricEQProcessor.kt:55-80 | fresh distinct filters, one per band, holding the band designs |
| Equalizer.DecodeAndFilter | android/app/src/main/kotlin/com/haasele/musicrr/dsp/ParametricEQProcessor.kt:135-147 | the decoded block goes through the cascade (several channels) or only into the histories (one channel) |
| Equalizer.FinishBlock | android/app/src/main/kotlin/com/haasele/musicrr/dsp/ParametricEQProcessor.kt:150-169 | preamp and limiter on the block, then the output holds its encoding and the input is cleared |
| Equalizer.Equalize | android/app/src/main/kotlin/com/haasele/musicrr/dsp/ParametricEQProcessor.kt:135-169 | one processed call: the scratch array becomes the block function's result, the histories advance, and the output holds the block's encoding |
| Equalizer.ClearBuffers | android/app/src/main/kotlin/com/haasele/musicrr/dsp/ParametricEQProcessor.kt:198-200 | both buffers present are cleared; the filters are untouched |
| Equalizer.ParametricEQProcessor.constructor | android/app/src/main/kotlin/com/haasele/musicrr/dsp/ParametricEQProcessor.kt:18-31 | no bands, 0 dB preamp, limiter on, no format, no buffers |
| Equalizer.ParametricEQProcessor.UpdateFilters | android/app/src/main/kotlin/com/haasele/musicrr/dsp/ParametricEQProcessor.kt:55-80 | the filters become the band designs at the format's rate (44100 without one), from silent histories |
| Equalizer.ParametricEQProcessor.SetBands | android/app/src/main/kotlin/com/haasele/musicrr/dsp/ParametricEQProcessor.kt:36-39 | the bands are stored and the filters redesigned from them |
| Equalizer.ParametricEQProcessor.SetPreamp | android/app/src/main/kotlin/com/haasele/musicrr/dsp/ParametricEQProcessor.kt:44-46 | only the preamp changes |
| Equalizer.ParametricEQProcessor.SetLimiterEnabled | android/app/src/main/kotlin/com/haasele/musicrr/dsp/ParametricEQProcessor.kt:51-53 | only the limiter flag changes |
| Equalizer.ParametricEQProcessor.IsActive | android/app/src/main/kotlin/com/haasele/musicrr/dsp/ParametricEQProcessor.kt:82-84 | active exactly when there are bands or the preamp is not 0 dB |
| Equalizer.ParametricEQProcessor.AttachBuffers | android/app/src/main/kotlin/com/haasele/musicrr/dsp/ParametricEQProcessor.kt:87-94 | formats recorded; new cleared buffers and a scratch array of the configured sizes |
| Equalizer.ParametricEQProcessor.Configure | android/app/src/main/kotlin/com/haasele/musicrr/dsp/ParametricEQProcessor.kt:86-99 | buffers allocated for the format and the filters redesigned at its rate; the output format is the input format |
| Equalizer.ParametricEQProcessor.QueueInput | android/app/src/main/kotlin/com/haasele/musicrr/dsp/ParametricEQProcessor.kt:101-111 | the source is appended to the input buffer when it fits; nothing else changes |
| Equalizer.ParametricEQProcessor.EmptyAnswer | android/app/src/main/kotlin/com/haasele/musicrr/dsp/ParametricEQProcessor.kt:118-132 | the empty answer is a fresh empty buffer and nothing changes |
| Equalizer.ParametricEQProcessor.GetOutput | android/app/src/main/kotlin/com/haasele/musicrr/dsp/ParametricEQProcessor.kt:117-172 | the answer and new state follow the decision: an empty buffer with nothing changed; a throw (null) with the scratch array overwritten, the input advanced past one short more than fits, the output, designs and histories untouched; or the processed block encoded into the output. In every case the settings, formats and buffers are kept and the input's bytes are untouched |
| Equalizer.ParametricEQProcessor.DrainFormatted | android/app/src/main/kotlin/com/haasele/musicrr/dsp/ParametricEQProcessor.kt:126-172 | the format-known part of `getOutput`: empty when the frames exceed the scratch length, the overrun when the floats do, otherwise the processed block, as the decision says; the input's bytes are untouched |
| Equalizer.ParametricEQProcessor.DrainChecked | android/app/src/main/kotlin/com/haasele/musicrr/dsp/ParametricEQProcessor.kt:134-172 | past the guard the block is processed as the decision says: filtered into the scratch array, encoded into the output, the input cleared with its bytes untouched, the histories advanced |
| Equalizer.ParametricEQProcessor.Flush | android/app/src/main/kotlin/com/haasele/musicrr/dsp/ParametricEQProcessor.kt:198-202 | buffers cleared and every history silent; designs, settings and formats kept; the bytes of both buffers and the scratch array untouched |
| Equalizer.ParametricEQProcessor.Reset | android/app/src/main/kotlin/com/haasele/musicrr/dsp/ParametricEQProcessor.kt:204-210 | as flush (bytes of both buffers and the scratch array untouched), and the formats forgotten |
| ReplayGain.ActiveCountsUnselectedGain | android/app/src/main/kotlin/com/haasele/musicrr/dsp/ReplayGainProcessor.kt:59-61 | track mode with 0 dB track gain and a non-zero album gain is reported active although it applies no gain |
| ReplayGain.InactiveIffSilentOrDisabled | android/app/src/main/kotlin/com/haasele/musicrr/dsp/ReplayGainProcessor.kt:59-61 | inactive exactly when the mode is disabled or both gains are 0 dB |
| ReplayGain.Amplified | android/app/src/main/kotlin/com/haasele/musicrr/dsp/ReplayGainProcessor.kt:148-156 | the gain stage keeps the block length |
| ReplayGain.AmplifiedBounds | android/app/src/main/kotlin/com/haasele/musicrr/dsp/ReplayGainProcessor.kt:148-156 | with the limiter every sample ends within 0.95; without it within [−1, 1] |
| ReplayGain.PassThroughCases | android/app/src/main/kotlin/com/haasele/musicrr/dsp/ReplayGainProcessor.kt:92-137 | disabled mode copies the pending bytes; a 0 dB selected gain copies them once the frame guard passes, even where the floats would not fit |
| ReplayGain.OverrunIff | android/app/src/main/kotlin/com/haasele/musicrr/dsp/ReplayGainProcessor.kt:107-146 | `getOutput` throws exactly when enabled with a non-zero gain, the frame guard passes and frames × channels exceed the scratch length; that needs two or more channels, and the scratch array then holds the first shorts |
| ReplayGain.RewrittenOutput | android/app/src/main/kotlin/com/haasele/musicrr/dsp/ReplayGainProcessor.kt:107-169 | a rewritten block needs a known format, an enabled mode and a non-zero gain, and holds the amplified decode of whole frames within the scratch length |
| ReplayGain.AmplifiedPeak | android/app/src/main/kotlin/com/haasele/musicrr/dsp/ReplayGainProcessor.kt:177-183 | the first pass returns the peak magnitude after the gain |
| ReplayGain.ApplyReplayGainWithLimiting | android/app/src/main/kotlin/com/haasele/musicrr/dsp/ReplayGainProcessor.kt:172-197 | the block becomes the limiter's output over the amplified samples |
| ReplayGain.LimitingPass | android/app/src/main/kotlin/com/haasele/musicrr/dsp/ReplayGainProcessor.kt:186-190 | above the threshold every sample becomes the clamp of sample × gain × threshold / peak; the rest of the array is kept |
| ReplayGain.ApplyGainClamped | android/app/src/main/kotlin/com/haasele/musicrr/dsp/ReplayGainProcessor.kt:153-155 | the block becomes the amplified samples clamped into [−1, 1] |
| ReplayGain.ApplyGain | android/app/src/main/kotlin/com/haasele/musicrr/dsp/ReplayGainProcessor.kt:140-169 | decode, gain with or without limiter, encode: the output holds the encoding and the input is cleared |
| ReplayGain.ReplayGainProcessor.constructor | android/app/src/main/kotlin/com/haasele/musicrr/dsp/ReplayGainProcessor.kt:18-29 | both gains 0 dB, disabled, limiter on, no format and no buffers |
| ReplayGain.ReplayGainProcessor.SetTrackGain | android/app/src/main/kotlin/com/haasele/musicrr/dsp/ReplayGainProcessor.kt:34-36 | only the track gain changes |
| ReplayGain.ReplayGainProcessor.SetAlbumGain | android/app/src/main/kotlin/com/haasele/musicrr/dsp/ReplayGainProcessor.kt:41-43 | only the album gain changes |
| ReplayGain.ReplayGainProcessor.SetMode | android/app/src/main/kotlin/com/haasele/musicrr/dsp/ReplayGainProcessor.kt:48-50 | only the mode changes |
| ReplayGain.ReplayGainProcessor.SetLimiterEnabled | android/app/src/main/kotlin/com/haasele/musicrr/dsp/ReplayGainProcessor.kt:55-57 | only the limiter flag changes |
| ReplayGain.ReplayGainProcessor.IsActive | android/app/src/main/kotlin/com/haasele/musicrr/dsp/ReplayGainProcessor.kt:59-61 | reports the `Active` predicate of the settings |
| ReplayGain.ReplayGainProcessor.Configure | android/app/src/main/kotlin/com/haasele/musicrr/dsp/ReplayGainProcessor.kt:63-74 | formats recorded and fresh cleared buffers of the configured sizes; the output format is the input format |
| ReplayGain.ReplayGainProcessor.QueueInput | android/app/src/main/kotlin/com/haasele/musicrr/dsp/ReplayGainProcessor.kt:76-85 | the source is appended to the input buffer when it fits; nothing else changes |
| ReplayGain.ReplayGainProcessor.GetOutput | android/app/src/main/kotlin/com/haasele/musicrr/dsp/ReplayGainProcessor.kt:91-170 | the answer and new state follow the decision: empty, a copy of the pending bytes, a throw (null) with the scratch array overwritten and the output untouched, or the rewritten block; in every case the input's bytes are untouched |
| ReplayGain.ReplayGainProcessor.DrainDisabled | android/app/src/main/kotlin/com/haasele/musicrr/dsp/ReplayGainProcessor.kt:92-105 | the disabled path: empty without input, otherwise a copy; the input's bytes are untouched |
| ReplayGain.ReplayGainProcessor.DrainWithGain | android/app/src/main/kotlin/com/haasele/musicrr/dsp/ReplayGainProcessor.kt:107-170 | the enabled path: empty when the frames exceed the scratch length, then the 0 dB copy, the overrun or the rewritten block, as the decision says; the input's bytes are untouched |
| ReplayGain.ReplayGainProcessor.DrainChecked | android/app/src/main/kotlin/com/haasele/musicrr/dsp/ReplayGainProcessor.kt:123-170 | past the frame guard: a copy at 0 dB, the overrun when the floats do not fit, otherwise the rewritten block; the input's bytes are untouched |
| ReplayGain.ReplayGainProcessor.Flush | android/app/src/main/kotlin/com/haasele/musicrr/dsp/ReplayGainProcessor.kt:201-204 | both buffers cleared with their bytes untouched, the scratch array untouched; settings and formats kept |
| ReplayGain.ReplayGainProcessor.Reset | android/app/src/main/kotlin/com/haasele/musicrr/dsp/ReplayGainProcessor.kt:206-211 | both buffers cleared with their bytes untouched, the scratch array untouched, the settings kept and the formats forgotten |
| Crossfade.TruncDiv | android/app/src/main/kotlin/com/haasele/musicrr/dsp/CrossfadeMixer.kt:136 | Kotlin's `/` on `Int`: the quotient truncated toward zero |
| Crossfade.WrapInt32 | android/app/src/main/kotlin/com/haasele/musicrr/dsp/CrossfadeMixer.kt:136 | a product that leaves the `Int` range wraps into it; in range it is kept |
| Crossfade.FadeDurationMeaning | android/app/src/main/kotlin/com/haasele/musicrr/dsp/CrossfadeMixer.kt:136 | without overflow the fade lasts rate × ms / 1000 samples, rounded down, and the as-written length equals it |
| Crossfade.LongFadeOverflows | android/app/src/main/kotlin/com/haasele/musicrr/dsp/CrossfadeMixer.kt:136-138 | a 45 s fade at 48 kHz overflows to a negative length; the intended length is 2160000 |
| Crossfade.LongFadeEndsAtFirstBlock | android/app/src/main/kotlin/com/haasele/musicrr/dsp/CrossfadeMixer.kt:136-166 | with that overflowed length the first block is mixed at weights (1, 0), keeping the current track and none of the next, and the mixer switches off |
| Crossfade.Progress | android/app/src/main/kotlin/com/haasele/musicrr/dsp/CrossfadeMixer.kt:184 | the progress is clamped into [0, 1] |
| Crossfade.FadeOut | android/app/src/main/kotlin/com/haasele/musicrr/dsp/CrossfadeMixer.kt:182-189 | the fade-out weight lies in [0, 1] and is 1 for a zero length |
| Crossfade.FadeIn | android/app/src/main/kotlin/com/haasele/musicrr/dsp/CrossfadeMixer.kt:191-198 | the fade-in weight lies in [0, 1] and is 0 for a zero length |
| Crossfade.WeightsSumToOne | android/app/src/main/kotlin/com/haasele/musicrr/dsp/CrossfadeMixer.kt:182-198 | the two weights always sum to 1 |
| Crossfade.FadeOutFalls | android/app/src/main/kotlin/com/haasele/musicrr/dsp/CrossfadeMixer.kt:182-189 | the fade-out weight never rises with the position: 1 at the start and 0 from the end on |
| Crossfade.Available | android/app/src/main/kotlin/com/haasele/musicrr/dsp/CrossfadeMixer.kt:142-145 | the samples mixed: the block's or what is left of the next track, whichever is fewer |
| Crossfade.MixStaysInRange | android/app/src/main/kotlin/com/haasele/musicrr/dsp/CrossfadeMixer.kt:141-159 | mixing in-range current and next samples stays in [−1, 1] |
| Crossfade.MixEndpoints | android/app/src/main/kotlin/com/haasele/musicrr/dsp/CrossfadeMixer.kt:141-159 | at weights (1, 0) the block is unchanged; at (0, 1) the mixed prefix is the next track's samples |
| Crossfade.Idle | android/app/src/main/kotlin/com/haasele/musicrr/dsp/CrossfadeMixer.kt:44-49 | the state `disable` leaves is well formed and not active |
| Crossfade.Advanced | android/app/src/main/kotlin/com/haasele/musicrr/dsp/CrossfadeMixer.kt:141-166 | after a block, with the fade length computed in `Int`, the cursor stays within the next track |
| Crossfade.AdvancedStep | android/app/src/main/kotlin/com/haasele/musicrr/dsp/CrossfadeMixer.kt:161-166 | a block ends the fade exactly when the position reaches the wrapped fade length, leaving it idle; otherwise the position moves by exactly the block's frames with the duration, the next track and the cursor's progress kept |
| Crossfade.FadeEnds | android/app/src/main/kotlin/com/haasele/musicrr/dsp/CrossfadeMixer.kt:161-166 | enough blocks of at least one frame switch the crossfade off |
| Crossfade.DisabledCopies | android/app/src/main/kotlin/com/haasele/musicrr/dsp/CrossfadeMixer.kt:99-112 | disabled, the pending bytes are copied whether or not a scratch array exists |
| Crossfade.NoOutputIff | android/app/src/main/kotlin/com/haasele/musicrr/dsp/CrossfadeMixer.kt:114-127 | enabled, `getOutput` answers empty exactly when a buffer or the input bytes are missing or the frame count exceeds the scratch length |
| Crossfade.OverrunIff | android/app/src/main/kotlin/com/haasele/musicrr/dsp/CrossfadeMixer.kt:123-133 | `getOutput` throws exactly when enabled, the frame guard passes and frames × channels exceed the scratch length; that needs two or more channels, and the scratch array then holds the first shorts |
| Crossfade.DecideMixed | android/app/src/main/kotlin/com/haasele/musicrr/dsp/CrossfadeMixer.kt:114-159 | enabled, with every buffer, pending input and room for its floats, the block is the decoded frames mixed at the weights of the current position over the wrapped fade length |
| Crossfade.MixedOutput | android/app/src/main/kotlin/com/haasele/musicrr/dsp/CrossfadeMixer.kt:114-179 | a mixed block, weighted over the wrapped fade length, covers whole frames within the scratch length, leaves under one frame of input unread, and stays in [−1, 1] when the next track does |
| Crossfade.MixInto | android/app/src/main/kotlin/com/haasele/musicrr/dsp/CrossfadeMixer.kt:141-153 | the first `available` floats are blended with the next track's, the rest kept |
| Crossfade.FadeOutInto | android/app/src/main/kotlin/com/haasele/musicrr/dsp/CrossfadeMixer.kt:155-158 | without a next track the block is scaled by the fade-out weight |
| Crossfade.DecodeAndMix | android/app/src/main/kotlin/com/haasele/musicrr/dsp/CrossfadeMixer.kt:130-159 | the scratch block becomes the mix of the decoded shorts |
| Crossfade.CrossfadeMixer.constructor | android/app/src/main/kotlin/com/haasele/musicrr/dsp/CrossfadeMixer.kt:14-29 | off, 3000 ms, fade at 0, 44100 Hz, two channels, no buffers |
| Crossfade.CrossfadeMixer.Enable | android/app/src/main/kotlin/com/haasele/musicrr/dsp/CrossfadeMixer.kt:34-39 | on, with the given length, fade and cursor at 0, next track kept |
| Crossfade.CrossfadeMixer.Disable | android/app/src/main/kotlin/com/haasele/musicrr/dsp/CrossfadeMixer.kt:44-49 | the fade becomes idle |
| Crossfade.CrossfadeMixer.SetNextTrackBuffer | android/app/src/main/kotlin/com/haasele/musicrr/dsp/CrossfadeMixer.kt:54-57 | the next track is stored and its cursor reset |
| Crossfade.CrossfadeMixer.IsEnabled | android/app/src/main/kotlin/com/haasele/musicrr/dsp/CrossfadeMixer.kt:62 | reports the enabled flag |
| Crossfade.CrossfadeMixer.IsActive | android/app/src/main/kotlin/com/haasele/musicrr/dsp/CrossfadeMixer.kt:64-66 | active exactly when enabled with a next track |
| Crossfade.CrossfadeMixer.Configure | android/app/src/main/kotlin/com/haasele/musicrr/dsp/CrossfadeMixer.kt:68-81 | rate and channels taken from the format; fresh cleared buffers of the configured sizes |
| Crossfade.CrossfadeMixer.AttachBuffers | android/app/src/main/kotlin/com/haasele/musicrr/dsp/CrossfadeMixer.kt:69-78 | formats recorded; fresh cleared buffers of the configured sizes |
| Crossfade.CrossfadeMixer.QueueInput | android/app/src/main/kotlin/com/haasele/musicrr/dsp/CrossfadeMixer.kt:83-92 | the source is appended to the input buffer when it fits; nothing else changes |
| Crossfade.CrossfadeMixer.GetOutput | android/app/src/main/kotlin/com/haasele/musicrr/dsp/CrossfadeMixer.kt:98-180 | the answer and new state follow the decision: empty, a copy, a throw (null) with the scratch array overwritten and the fade and output untouched, or the mixed block with the fade advanced; in every case the input's bytes are untouched |
| Crossfade.CrossfadeMixer.DrainDisabled | android/app/src/main/kotlin/com/haasele/musicrr/dsp/CrossfadeMixer.kt:99-112 | the disabled path: empty without input, otherwise a copy; the input's bytes are untouched |
| Crossfade.CrossfadeMixer.DrainEnabled | android/app/src/main/kotlin/com/haasele/musicrr/dsp/CrossfadeMixer.kt:114-180 | the enabled path: empty when the frames exceed the scratch length, the overrun when the floats do, otherwise the mixed block; the input's bytes are untouched |
| Crossfade.CrossfadeMixer.DrainChecked | android/app/src/main/kotlin/com/haasele/musicrr/dsp/CrossfadeMixer.kt:129-180 | past the guard the block is mixed over the wrapped fade length as the decision says; the input's bytes are untouched |
| Crossfade.CrossfadeMixer.AdvanceFade | android/app/src/main/kotlin/com/haasele/musicrr/dsp/CrossfadeMixer.kt:153-166 | the cursor and the fade position advance; a fade that reaches the wrapped length disables the mixer |
| Crossfade.CrossfadeMixer.Flush | android/app/src/main/kotlin/com/haasele/musicrr/dsp/CrossfadeMixer.kt:202-207 | buffers cleared and fade position and cursor at 0; the flag, duration, next track, rate, channel count and formats kept; the bytes of both buffers and the scratch array untouched |
| Crossfade.CrossfadeMixer.Reset | android/app/src/main/kotlin/com/haasele/musicrr/dsp/CrossfadeMixer.kt:209-218 | buffers cleared with their bytes and the scratch array untouched, the fade idle, rate and channel count kept and the formats forgotten |
| Text.RemovePrefix | android/app/src/main/kotlin/com/haasele/musicrr/webserver/ApiRouter.kt:39 | `removePrefix`: a present prefix is removed exactly; otherwise the string is kept |
| Text.Trim | android/app/src/main/kotlin/com/haasele/musicrr/webserver/ApiRouter.kt:39 | `trim`: the middle left after the leading and trailing whitespace, starting and ending with non-whitespace |
| Text.TrimEmptyIffBlank | android/app/src/main/kotlin/com/haasele/musicrr/audio/MetadataExtractor.kt:68-72 | a string trims to empty exactly when it is blank |
| Text.TrimIdempotent | android/app/src/main/kotlin/com/haasele/musicrr/webserver/ApiRouter.kt:39 | trimming twice equals trimming once |
| Text.RegexSpaceIsWhitespace | android/app/src/main/kotlin/com/haasele/musicrr/audio/MetadataExtractor.kt:99 | every regex `\s` is Kotlin whitespace, but not the reverse: a no-break space is whitespace only |
| Text.LowerAscii | android/app/src/main/kotlin/com/haasele/musicrr/webserver/WebSocketHandler.kt:31 | ASCII letters fold to lower case, other characters unchanged |
| Text.Decimal | android/app/src/main/assets/web/app.js:414 | a number's decimal text has digits only and no leading zero |
| Text.DecimalRoundTrip | android/app/src/main/assets/web/app.js:414 | reading a number's decimal text back gives the number |
| Text.LeadingZeroIgnored | android/app/src/main/assets/web/app.js:414 | a leading '0' does not change a digit string's value |
| Tokens.TokenOf | android/app/src/main/kotlin/com/haasele/musicrr/webserver/TokenManager.kt:108-113 | a token drawn from the 36-character alphabet has one character per draw |
| Tokens.GenerateRandomToken | android/app/src/main/kotlin/com/haasele/musicrr/webserver/TokenManager.kt:108-113 | a random token has exactly the requested length over upper-case letters and digits |
| Tokens.TokenTextIsCommaFree | android/app/src/main/kotlin/com/haasele/musicrr/webserver/TokenManager.kt:108-113 | generated tokens never contain the separator comma |
| Tokens.Split | android/app/src/main/kotlin/com/haasele/musicrr/webserver/TokenManager.kt:118 | `split(",")` gives at least one part and no part contains a comma |
| Tokens.SplitJoin | android/app/src/main/kotlin/com/haasele/musicrr/webserver/TokenManager.kt:118-126 | splitting a join of comma-free tokens gives them back |
| Tokens.JoinSplit | android/app/src/main/kotlin/com/haasele/musicrr/webserver/TokenManager.kt:118-126 | joining a split gives the original text |
| Tokens.EmptySetReadsBackAsEmptyToken | android/app/src/main/kotlin/com/haasele/musicrr/webserver/TokenManager.kt:115-126 | an emptied token set is saved as "" and reads back as the one empty token |
| Tokens.Dedup | android/app/src/main/kotlin/com/haasele/musicrr/webserver/TokenManager.kt:118 | `toSet`: the same members in first-seen order, without repeats |
| Tokens.AddIfAbsent | android/app/src/main/kotlin/com/haasele/musicrr/webserver/TokenManager.kt:74-75 | adding to the set gives the old members and the new token |
| Tokens.AccessTokenList | android/app/src/main/kotlin/com/haasele/musicrr/webserver/TokenManager.kt:115-122 | the stored list holds comma-free tokens |
| Tokens.Paired | android/app/src/main/kotlin/com/haasele/musicrr/webserver/TokenManager.kt:73-82 | pairing keeps the preferences well typed |
| Tokens.PairingAddsExactlyOneToken | android/app/src/main/kotlin/com/haasele/musicrr/webserver/TokenManager.kt:72-82 | pairing adds exactly the new access token and removes the pairing token and its expiry |
| Tokens.Revoked | android/app/src/main/kotlin/com/haasele/musicrr/webserver/TokenManager.kt:99-106 | revoking keeps the preferences well typed |
| Tokens.RevokedHoldsNothing | android/app/src/main/kotlin/com/haasele/musicrr/webserver/TokenManager.kt:99-106 | after revoking no access token, pairing token or expiry remains |
| Tokens.TokenManager.constructor | android/app/src/main/kotlin/com/haasele/musicrr/webserver/TokenManager.kt:9-22 | the manager reads the given preferences |
| Tokens.TokenManager.GeneratePairingToken | android/app/src/main/kotlin/com/haasele/musicrr/webserver/TokenManager.kt:27-38 | an 8-character token is stored with an expiry 24 hours after now |
| Tokens.TokenManager.GetPairingToken | android/app/src/main/kotlin/com/haasele/musicrr/webserver/TokenManager.kt:43-52 | a live stored token is returned unchanged; otherwise a new one is stored and returned |
| Tokens.TokenManager.RegeneratePairingToken | android/app/src/main/kotlin/com/haasele/musicrr/webserver/TokenManager.kt:57-59 | always stores and returns a new pairing token |
| Tokens.TokenManager.ValidatePairingToken | android/app/src/main/kotlin/com/haasele/musicrr/webserver/TokenManager.kt:64-86 | the live token yields one new 32-character access token and is consumed, and any other string changes nothing; when the stored token is missing or expired a new one is stored first, the string is compared with it, and a match is consumed the same way |
| Tokens.TokenManager.ValidateAccessToken | android/app/src/main/kotlin/com/haasele/musicrr/webserver/TokenManager.kt:91-94 | true exactly for a stored access token |
| Tokens.TokenManager.RevokeAllTokens | android/app/src/main/kotlin/com/haasele/musicrr/webserver/TokenManager.kt:99-106 | the preferences become the revoked ones |
| Router.DispatchFollowsTable | android/app/src/main/kotlin/com/haasele/musicrr/webserver/ApiRouter.kt:46-57 | a handler is chosen exactly for a (URI, method) pair in the route table |
| Router.BearerTokenForm | android/app/src/main/kotlin/com/haasele/musicrr/webserver/ApiRouter.kt:34-39 | a credential exists exactly for a header starting "Bearer ", and is its trimmed remainder |
| Router.InfoIsOpen | android/app/src/main/kotlin/com/haasele/musicrr/webserver/ApiRouter.kt:25-27 | `/api/info` is served with any credential or none |
| Router.HandlersNeedAuthentication | android/app/src/main/kotlin/com/haasele/musicrr/webserver/ApiRouter.kt:34-57 | a handler runs exactly when the request is authenticated and its pair is routed |
| Router.OpenEndpointsAreNotRoutes | android/app/src/main/kotlin/com/haasele/musicrr/webserver/ApiRouter.kt:25-57 | neither open endpoint is in the route table |
| Router.ClosedWithoutCredential | android/app/src/main/kotlin/com/haasele/musicrr/webserver/ApiRouter.kt:35-43 | an unauthenticated request to a closed endpoint gets 401 with the message for its case |
| Router.UnlistedIsNotFound | android/app/src/main/kotlin/com/haasele/musicrr/webserver/ApiRouter.kt:56 | an authenticated request outside the table gets 404 |
| Router.ErrorResponse | android/app/src/main/kotlin/com/haasele/musicrr/webserver/ApiRouter.kt:193-199 | an error reply is JSON with the status, the message and the code |
| Router.ReadRequestBody | android/app/src/main/kotlin/com/haasele/musicrr/webserver/ApiRouter.kt:175-183 | an unreadable body reads as the empty object |
| Router.HandlePairing | android/app/src/main/kotlin/com/haasele/musicrr/webserver/ApiRouter.kt:71-86 | 401 and an unchanged store, or the new access token returned and added with the pairing token consumed |
| Router.HandleProtected | android/app/src/main/kotlin/com/haasele/musicrr/webserver/ApiRouter.kt:35-57 | the reply is the one the gate decides for the request |
| Router.HandleRequest | android/app/src/main/kotlin/com/haasele/musicrr/webserver/ApiRouter.kt:18-57 | only pairing changes the store; every other request is answered as the gate decides |
| Sockets.QueryTokenFirst | android/app/src/main/kotlin/com/haasele/musicrr/webserver/WebSocketHandler.kt:75-90 | a `token` query parameter wins over the header; otherwise the bearer credential, or none |
| Sockets.AdmittedIffValidToken | android/app/src/main/kotlin/com/haasele/musicrr/webserver/WebSocketHandler.kt:28-46 | an upgrade is admitted exactly when the extracted token is an access token |
| Sockets.HandleCommand | android/app/src/main/kotlin/com/haasele/musicrr/webserver/WebSocketHandler.kt:191-267 | the reply names the command it answers |
| Sockets.SuccessExactly | android/app/src/main/kotlin/com/haasele/musicrr/webserver/WebSocketHandler.kt:199-255 | a reply succeeds exactly for a known command whose parameters parse and whose engine call succeeds |
| Sockets.UnknownCommandFails | android/app/src/main/kotlin/com/haasele/musicrr/webserver/WebSocketHandler.kt:252-254 | an unknown command fails with "Unknown command: …" |
| Sockets.SkipCommandsUnimplemented | android/app/src/main/kotlin/com/haasele/musicrr/webserver/WebSocketHandler.kt:224-233 | "next" and "previous" always fail as not yet implemented |
| Sockets.SuccessCarriesNoError | android/app/src/main/kotlin/com/haasele/musicrr/webserver/WebSocketHandler.kt:199-255 | a successful reply carries no error, and the volume is echoed only on success |
| Sockets.Without | android/app/src/main/kotlin/com/haasele/musicrr/webserver/WebSocketHandler.kt:130-131 | removing ids keeps the other clients unchanged |
| Sockets.WebSocketHandler.constructor | android/app/src/main/kotlin/com/haasele/musicrr/webserver/WebSocketHandler.kt:22 | no clients |
| Sockets.WebSocketHandler.HandleWebSocket | android/app/src/main/kotlin/com/haasele/musicrr/webserver/WebSocketHandler.kt:28-70 | not an upgrade: no reply; a bad token: 401; otherwise the client is registered and the handshake returned |
| Sockets.WebSocketHandler.Register | android/app/src/main/kotlin/com/haasele/musicrr/webserver/WebSocketHandler.kt:52-54 | the client is stored under its id |
| Sockets.WebSocketHandler.RemoveClient | android/app/src/main/kotlin/com/haasele/musicrr/webserver/WebSocketHandler.kt:95-100 | exactly that id is removed |
| Sockets.WebSocketHandler.Broadcast | android/app/src/main/kotlin/com/haasele/musicrr/webserver/WebSocketHandler.kt:105-132 | nothing is sent without clients; otherwise one envelope goes to every client and exactly the failing ones are removed |
| Sockets.WebSocketHandler.SendToAll | android/app/src/main/kotlin/com/haasele/musicrr/webserver/WebSocketHandler.kt:119-128 | every client is tried once and the failing ids are collected |
| Sockets.WebSocketHandler.RemoveEach | android/app/src/main/kotlin/com/haasele/musicrr/webserver/WebSocketHandler.kt:131 | the listed ids are removed and the others kept |
| Sockets.WebSocketHandler.ClientCount | android/app/src/main/kotlin/com/haasele/musicrr/webserver/WebSocketHandler.kt:272 | the number of connected clients |
| Sockets.WebSocketHandler.CloseAll | android/app/src/main/kotlin/com/haasele/musicrr/webserver/WebSocketHandler.kt:277-289 | every client is closed and the table emptied |
| WebServer.RoutesPartition | android/app/src/main/kotlin/com/haasele/musicrr/webserver/MusicrrWebServer.kt:30-54 | each URI takes exactly one route: API, socket, static file, or the default page |
| WebServer.StaticFileNameMeaning | android/app/src/main/kotlin/com/haasele/musicrr/webserver/MusicrrWebServer.kt:58-62 | "/" and "" name the index page; other URIs lose one leading "/" |
| WebServer.MimeTypeIsFirstMatch | android/app/src/main/kotlin/com/haasele/musicrr/webserver/MusicrrWebServer.kt:83-94 | the `when` chain is a first-match lookup in the suffix table |
| WebServer.FirstMatchStep | android/app/src/main/kotlin/com/haasele/musicrr/webserver/MusicrrWebServer.kt:84-93 | each `when` branch is tried only when every earlier suffix misses |
| WebServer.UnknownSuffixIsPlainText | android/app/src/main/kotlin/com/haasele/musicrr/webserver/MusicrrWebServer.kt:92 | a name with no known suffix is served as plain text |
| WebServer.ExtensionDecides | android/app/src/main/kotlin/com/haasele/musicrr/webserver/MusicrrWebServer.kt:85-91 | a known extension decides the type whatever the base name |
| WebServer.MusicrrWebServer.constructor | android/app/src/main/kotlin/com/haasele/musicrr/webserver/MusicrrWebServer.kt:10-21 | the server starts not running |
| WebServer.MusicrrWebServer.Serve | android/app/src/main/kotlin/com/haasele/musicrr/webserver/MusicrrWebServer.kt:23-55 | each route answers as its handler decides; the API leaves the socket clients alone and only pairing changes the store (rejected, or one new access token); a non-upgrade to "/ws" gets 400; static files change nothing |
| WebServer.MusicrrWebServer.StartServer | android/app/src/main/kotlin/com/haasele/musicrr/webserver/MusicrrWebServer.kt:96-109 | running exactly when binding succeeded |
| WebServer.MusicrrWebServer.StopServer | android/app/src/main/kotlin/com/haasele/musicrr/webserver/MusicrrWebServer.kt:111-116 | all socket clients are closed, then the server stops |
| WebServer.MusicrrWebServer.IsServerRunning | android/app/src/main/kotlin/com/haasele/musicrr/webserver/MusicrrWebServer.kt:141 | reports the running flag |
| Metadata.ToIntOrNull | android/app/src/main/kotlin/com/haasele/musicrr/audio/MetadataExtractor.kt:106 | `toIntOrNull`: a digit string's value when it fits in an `Int`, otherwise null |
| Metadata.DigitRun | android/app/src/main/kotlin/com/haasele/musicrr/audio/MetadataExtractor.kt:99 | `\d+` is greedy: the longest run of digits at the position |
| Metadata.FindEnclosed | android/app/src/main/kotlin/com/haasele/musicrr/audio/MetadataExtractor.kt:100-101 | the first position where an opener, digits and the closer begin |
| Metadata.Captured | android/app/src/main/kotlin/com/haasele/musicrr/audio/MetadataExtractor.kt:98-105 | a pattern's capture is a non-empty run of digits |
| Metadata.ExtractionOrder | android/app/src/main/kotlin/com/haasele/musicrr/audio/MetadataExtractor.kt:95-113 | no title gives no number; the album is never consulted; the patterns are tried in order and the first that yields a number wins |
| Metadata.TrackNumberFromTitleDigits | android/app/src/main/kotlin/com/haasele/musicrr/audio/MetadataExtractor.kt:104-109 | a found number is the value of a digit run in the title |
| Metadata.LeadingNumberCaptures | android/app/src/main/kotlin/com/haasele/musicrr/audio/MetadataExtractor.kt:99 | leading digits followed by a separator are captured |
| Metadata.EnclosedCaptures | android/app/src/main/kotlin/com/haasele/musicrr/audio/MetadataExtractor.kt:100-101 | the first bracketed digit run is captured |
| Metadata.NoOpenerNoCapture | android/app/src/main/kotlin/com/haasele/musicrr/audio/MetadataExtractor.kt:100-101 | without the opener nothing is captured |
| Metadata.LeadingNumberExample | android/app/src/main/kotlin/com/haasele/musicrr/audio/MetadataExtractor.kt:96-99 | "01. Intro" gives 1 |
| Metadata.ParenthesisedExample | android/app/src/main/kotlin/com/haasele/musicrr/audio/MetadataExtractor.kt:101-107 | "Song (3)" gives 3 |
| Metadata.ExampleMissesFirstPatterns | android/app/src/main/kotlin/com/haasele/musicrr/audio/MetadataExtractor.kt:99-100 | "Song (3)" matches neither the leading nor the bracket pattern |
| Metadata.ExampleParenthesised | android/app/src/main/kotlin/com/haasele/musicrr/audio/MetadataExtractor.kt:101 | the parenthesis pattern reads 3 from "Song (3)" |
| Metadata.OverflowFallsThrough | android/app/src/main/kotlin/com/haasele/musicrr/audio/MetadataExtractor.kt:104-108 | a bracketed number too big for an `Int` is skipped and the parenthesis pattern decides |
| Metadata.NonBlank | android/app/src/main/kotlin/com/haasele/musicrr/audio/MetadataExtractor.kt:68-72 | a tag is kept exactly when present and not blank |
| Metadata.NonBlankIffTrimmedNonEmpty | android/app/src/main/kotlin/com/haasele/musicrr/audio/MetadataExtractor.kt:68 | not blank means non-empty after trimming |
| Metadata.CleanTags | android/app/src/main/kotlin/com/haasele/musicrr/audio/MetadataExtractor.kt:55-83 | every text tag passes the blank filter and the track number comes from the raw title |
| Metadata.BlankTitleHasNoNumber | android/app/src/main/kotlin/com/haasele/musicrr/audio/MetadataExtractor.kt:65-68 | a blank title is dropped and yields no track number |
| Metadata.BlankHasNoDigits | android/app/src/main/kotlin/com/haasele/musicrr/audio/MetadataExtractor.kt:99-101 | no part of a blank title is a run of digits |
| RemoteUi.Get | android/app/src/main/assets/web/app.js:171-197 | an object's own field, or `undefined` when absent |
| RemoteUi.Or | android/app/src/main/assets/web/app.js:236-240 | `a \|\| b` is one of its operands and truthy when b is |
| RemoteUi.UnknownEventIgnored | android/app/src/main/assets/web/app.js:171-198 | an unknown event leaves the state unchanged |
| RemoteUi.UnreadableMessageIgnored | android/app/src/main/assets/web/app.js:171-174 | a message or payload that is `null` or `undefined` throws before any change |
| RemoteUi.WritesOnlyListedFields | android/app/src/main/assets/web/app.js:171-198 | each event changes only the fields its case writes |
| RemoteUi.InitialStateDefaults | android/app/src/main/assets/web/app.js:235-240 | missing or falsy status fields fall back to "stopped", 0, 0 and volume 1.0 |
| RemoteUi.MutedVolumeShownAsFull | android/app/src/main/assets/web/app.js:240 | a muted player's snapshot (volume 0) is mirrored as full volume |
| RemoteUi.QueueUpdateOrder | android/app/src/main/assets/web/app.js:191-194 | the queue is stored first; the index is stored only when listing the queue does not throw |
| RemoteUi.NullTrackAbortsQueue | android/app/src/main/assets/web/app.js:300-310 | a `null` entry in the queue makes the listing throw |
| RemoteUi.DelaysFrom | android/app/src/main/assets/web/app.js:161-169 | from k attempts, successive closes retry after 2000·(k+1), 2000·(k+2), … ms, at most 5 − k times |
| RemoteUi.RetriesAfterOpen | android/app/src/main/assets/web/app.js:135-139 | after a successful open at most five retries follow, 2, 4, 6, 8 and 10 s apart |
| RemoteUi.JsRem | android/app/src/main/assets/web/app.js:413 | JavaScript's `%` takes the dividend's sign |
| RemoteUi.PadStart | android/app/src/main/assets/web/app.js:414 | `padStart`: a shorter string is left-padded to the width, a longer one kept |
| RemoteUi.FormatTimeReadsBack | android/app/src/main/assets/web/app.js:410-415 | for a non-negative time the text is minutes without leading zero, ':', two digits below 60, reading back as the whole seconds |
| RemoteUi.SecondsPadded | android/app/src/main/assets/web/app.js:414 | seconds below 60 pad to exactly two digits with the same value |
| RemoteUi.ProgressPercent | android/app/src/main/assets/web/app.js:279-281 | percent × duration = position × 100 for a positive duration, within 0..100 for a position inside it, 0 otherwise |
| RemoteUi.ApiRequest | android/app/src/main/assets/web/app.js:358-370 | a body is sent exactly when it is truthy; the credential is "Bearer " and the token spelled out |
| RemoteUi.HandshakeAdmitted | android/app/src/main/assets/web/app.js:129-133 | the remote's upgrade is admitted exactly when its spelled token is stored; with no token it is rejected unless "null" is stored |
| RemoteUi.ToggleReachesHandler | android/app/src/main/assets/web/app.js:334-340 | with an accepted credential the toggle reaches the pause handler while playing and resume otherwise |
| RemoteUi.SkipFallbackNotHandled | android/app/src/main/assets/web/app.js:346-356 | the REST fallback for next and previous gets 404 with an accepted credential and 401 otherwise |
| RemoteUi.UnroutedGate | android/app/src/main/kotlin/com/haasele/musicrr/webserver/ApiRouter.kt:34-57 | a protected request outside the route table gets 404 exactly when authenticated and 401 otherwise |
| RemoteUi.Remote.constructor | android/app/src/main/assets/web/app.js:3-29 | default state, no attempts, the stored token, and the pairing screen exactly when no non-empty token is stored |
| RemoteUi.Remote.OnOpen | android/app/src/main/assets/web/app.js:135-139 | the attempt counter returns to 0 |
| RemoteUi.Remote.AttemptReconnect | android/app/src/main/assets/web/app.js:161-169 | below five attempts the counter rises and a retry is scheduled 2000 × attempts ms on; at five nothing happens |
| RemoteUi.Remote.HandleWebSocketMessage | android/app/src/main/assets/web/app.js:171-199 | the state becomes the reducer's result for the message |
| RemoteUi.Remote.UpdateState | android/app/src/main/assets/web/app.js:235-245 | the status fields are copied with their defaults; an unreadable status throws first |
| RemoteUi.Remote.UpdateQueue | android/app/src/main/assets/web/app.js:288-319 | the queue is stored; the call completes exactly when every entry can be listed |
| RemoteUi.Remote.SendCommand | android/app/src/main/assets/web/app.js:346-356 | a socket frame exactly when the socket is open; otherwise a POST to /api/<command> |
| RemoteUi.Remote.TogglePlayback | android/app/src/main/assets/web/app.js:334-340 | POST /api/pause while playing and /api/resume otherwise, without a body |
| RemoteUi.Remote.SendApiRequest | android/app/src/main/assets/web/app.js:358-387 | a 401 forgets the token, shows pairing and gives nothing; other replies pass through and a network error gives nothing |

## Left out

- The JSON text format: parsing and `toString` are not modelled. Replies are JSON value trees. A request body is a field map or a read failure. Socket messages arrive already parsed.
- The audio engine behind `AudioEngineBridge` is not part of this model. A handler's reply is `EngineReply(name)`, and a command's engine call is a boolean parameter.
- The 500 "WebSocket error" path in `handleWebSocket` is not modelled. Building the connection object cannot fail in the model.
- Client ids (a clock plus a hash code) are a parameter.
- `MusicrrWebSocket.onMessage`, `onOpen` and `sendInitialState` are not modelled, and `send` is a no-op in the source. The command handler is modelled on its own as `Sockets.HandleCommand`.
- Case folding of the "websocket" upgrade header is ASCII only. Kotlin's Unicode folding is not modelled.
- NanoHTTPD methods other than GET and POST, and NanoHTTPD's own parsing of requests, are not modelled.
- Asset streams are a set of existing paths. `getLocalIpAddress` and `getServerUrl` (network interfaces) are not modelled.
- Concurrency is not modelled: the `synchronized` blocks and the concurrent client map.
- Tokens.TokenManager.GeneratePairingToken: the expiry `now + 24 h` is unbounded. `Long` overflow is not modelled.
- `SharedPreferences.apply` writes asynchronously in the source. The model's writes are immediate.
- `SecureRandom` is an unconstrained choice over the alphabet.
- The exception text a failed `getInt` or `getDouble` puts into a command reply is modelled as a fixed missing-parameter message.
- `Float` arithmetic and rounding are not modelled: amplitudes are reals.
- Equalizer.ParametricEQProcessor.Configure, ReplayGain.ReplayGainProcessor.Configure and Crossfade.CrossfadeMixer.Configure require a format with a positive sample rate and at least one channel (`Pcm.ValidFormat`). The source's `configure` checks neither. A format with no channels or a rate of 0 or less is not modelled: the buffer sizes and the frame counts divide by the channel count.
- Equalizer.ParametricEQProcessor.Configure also requires every band to be designable at the rate (`BandsDesignable`): a zero denominator makes `Float` coefficients infinite or NaN in the source, which reals cannot express.
- The `ArrayIndexOutOfBoundsException` an overrunning `getOutput` raises is a `null` answer. How the player handles it is not modelled.
- cos, sin, pow and sqrt are not modelled. They come from the host:
  - `Trig` for a band's design;
  - `pow10` for the dB-to-linear gain.
- Biquad.BiquadFilter.Configure: the unused `beta` and `S` values of the source are not computed.
- Crossfade.CrossfadeMixer.SetNextTrackBuffer: the next track's `FloatArray` is stored as a value snapshot. Later writes by the host to the same array are not seen.
- `queueEndOfStream` and `isEnded` are constant in the source and are not modelled.
- `extractMetadata`, `extractWithMediaMetadataRetriever` and `extractCoverArt` (file and retriever I/O) are not modelled. Only the tag clean-up is: the blank filter and the track number. The year, duration and bitrate `toIntOrNull` conversions are left out with the retriever.
- app.js parts not modelled:
  - the DOM, `fetch`, `localStorage` and timers;
  - `handlePairing` and `loadInitialState`;
  - seeking from the progress bar;
  - `escapeHtml`;
  - the library tabs.
- RemoteUi.Get: only own fields and `length` are read. Other prototype properties read as `undefined`.
- RemoteUi.ProgressPercent: modelled for numeric position and duration only. JavaScript's coercion of other values is not modelled.
- RemoteUi.FormatTime: modelled for numeric input only. Its read-back lemma covers non-negative times.
- MonoHistories / Equalizer.RunFiltersMono: the slice copy's contents are discarded as in the source. Only the histories are kept.

## Findings

| source | as written | input that shows it | evidently intended | confidence | as-written member | corrected member |
|---|---|---|---|---|---|---|
| android/app/src/main/kotlin/com/haasele/musicrr/dsp/ParametricEQProcessor.kt:101-124 (same in android/app/src/main/kotlin/com/haasele/musicrr/dsp/ReplayGainProcessor.kt:76-112 and android/app/src/main/kotlin/com/haasele/musicrr/dsp/CrossfadeMixer.kt:83-120) | `queueInput` puts bytes at the input buffer's position, and `getOutput` reads from that position to the limit without a `flip` | after `configure`, queue 4 bytes into an empty input buffer: the drain reads the capacity − 4 zero bytes that follow, never the 4 queued ones | flip the input buffer before draining, so the queued bytes are read | not executed | Stage.QueueThenReadAsWritten | Stage.QueueThenReadFlipped |
| android/app/src/main/kotlin/com/haasele/musicrr/dsp/ParametricEQProcessor.kt:128-138 (same in android/app/src/main/kotlin/com/haasele/musicrr/dsp/ReplayGainProcessor.kt:117-121 and android/app/src/main/kotlin/com/haasele/musicrr/dsp/CrossfadeMixer.kt:123-127) | the guard compares the frame count with the scratch length, but the decode loop writes frames × channels floats | stereo at rate r with a full input buffer of 16r bytes: 4r frames pass the guard, the loop fills the array of 4r floats and its next store throws `ArrayIndexOutOfBoundsException` (the replay-gain stage at 0 dB copies the bytes instead and does not throw) | reject when frames × channels exceeds the scratch length | not executed | Stage.AsWrittenGuardOverrunsStereo | Equalizer.CorrectedNoOutputIff |
| android/app/src/main/kotlin/com/haasele/musicrr/dsp/CrossfadeMixer.kt:136 | `durationMs * sampleRate` is computed in 32-bit `Int` before the widening to `Long` | 45000 ms at 48000 Hz: the product wraps to a negative length, so the first block keeps the current track at full level, takes nothing of the next, and switches the mixer off | compute the product in `Long` | not executed | Crossfade.LongFadeEndsAtFirstBlock | Crossfade.FadeDurationMeaning |
| android/app/src/main/kotlin/com/haasele/musicrr/dsp/ParametricEQProcessor.kt:141-147 | with one channel each band filters a slice copy, so its output is discarded | mono input with any non-transparent band: the block written equals the block with no bands | filter the decoded samples in place for every channel count | not executed | Equalizer.MonoOutputIgnoresFilters | Equalizer.IntendedBlocksStream |
| android/app/src/main/kotlin/com/haasele/musicrr/dsp/ParametricEQProcessor.kt:145 with android/app/src/main/kotlin/com/haasele/musicrr/dsp/BiquadFilter.kt:141 | with several channels each band runs over the whole scratch array, past the decoded block | stereo, a long block then a shorter one: after the shorter one the band's history ends with the last float of the longer block | filter only the decoded samples, so the histories continue the stream | not executed | Equalizer.StaleTailEntersHistory | Equalizer.IntendedBlocksStream |
