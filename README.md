# PulseAudio capture backend of libuac — negotiation and frame-delivery model

`gear-lib/libuac/pulseaudio.c` is the PulseAudio backend of libuac, a small audio-capture
library. The backend connects to the sound server. It asks the server for the default source's
native sample specification and opens a record stream. Then it turns each batch of captured
bytes into an `audio_frame`. This project models the deterministic decisions inside that
backend and proves properties about them:

- `types.dfy` (`PulseTypes`) defines the fixed-width integers (`uint8`, `uint32`, `uint64`).
  It also defines the server's sample formats and channel positions, the module's own sample
  formats, and `enum speaker_layout` with the integer value C gives each layout.
- `mappers.dfy` (`FormatMappers`) models `pulse_to_sample_format` and
  `pulse_channels_to_speakers`. Each mapper's contract is stated against the supported-format
  set or the known-count set, and the format mapping is proved to round-trip through its inverse.
- `channel_map.dfy` (`ChannelMaps`) models `pulse_channel_map` as a method of a `ChannelMap`
  class. The class holds the position array (`PA_CHANNELS_MAX` = 32 slots) and the declared
  channel count. The method is specified by two functions on the layout. Lemmas tie those
  functions to the channels that the `speaker_layout` comments document.
- `sample_time.dfy` (`SampleTime`) models `samples_to_ns` and `get_sample_time`. Both wrap
  modulo 2^64, like the C `uint64_t` arithmetic.
- `negotiation.dfy` (`Negotiation`) models the fallback policy of `source_info_cb` as a pure
  function. It also holds the finding below and its corrected version.
- `delivery.dfy` (`FrameDelivery`) models the decision `read_cb` makes for each peek as a pure
  function, with the drop count and the frame's contents.
- `pulse_ctx.dfy` (`PulseBackend`) models `struct pulse_ctx` as a class. Its methods
  `SourceInfo` and `Read` update the context, the stream's drop counter and the main loop's
  signal counter, and are proved against the functions above. The callbacks' identity checks
  (`c->pa_ctx != pc`, `c->pa_stream != ps`) are reference comparisons.

The format and channel fallback runs for the item with `eol == 0`. For the end-of-list call,
the callback only signals the main loop (pulseaudio.c:245-247, 269-270).

Inputs that the source reads from outside are parameters here. The clock reading `now`
replaces `os_gettime_ns`. The peek result `(nbytes, has buffer)` replaces `pa_stream_peek`.
`bytes_per_frame` is a context field, assumed to be set before streaming.

## Model

| member | source | states |
|---|---|---|
| `FormatMappers.PulseToSampleFormat` | gear-lib/libuac/pulseaudio.c:199-214 | the result is a known module format exactly when the server format is one of U8, S16LE, S32LE, FLOAT32LE; every other format gives UNKNOWN |
| `FormatMappers.SampleFormatToPulse` | gear-lib/libuac/pulseaudio.c:199-214 | reverse mapping: defined exactly for the known module formats, and always yields a supported server format |
| `FormatMappers.FormatRoundTrip` | gear-lib/libuac/pulseaudio.c:199-214 | every supported server format is recovered from the module format it maps to |
| `FormatMappers.SampleFormatRoundTrip` | gear-lib/libuac/pulseaudio.c:199-214 | every known module format is the image of its server format, so the mapping is onto the four known formats |
| `FormatMappers.PulseToSampleFormatInjective` | gear-lib/libuac/pulseaudio.c:202-209 | the four supported server formats map to pairwise distinct module formats |
| `FormatMappers.PulseToSampleFormatOnto` | gear-lib/libuac/pulseaudio.c:199-214 | every module format, UNKNOWN included, is produced by some server format |
| `FormatMappers.ChannelsToSpeakers` | gear-lib/libuac/pulseaudio.c:216-235 | a named layout exactly for the counts 1, 2, 3, 4, 5, 6, 8 (UNKNOWN otherwise), and that layout's enum value equals the count |
| `FormatMappers.SpeakersValueRoundTrip` | gear-lib/libuac/pulseaudio.c:37-46 | the enum numbering inverts the count-to-layout mapping: each named layout is the layout of its own value |
| `FormatMappers.ChannelsToSpeakersOnto` | gear-lib/libuac/pulseaudio.c:216-235 | every speaker layout, UNKNOWN included, is produced by some channel count |
| `ChannelMaps.LayoutPositions` | gear-lib/libuac/pulseaudio.c:515-554 | specification of slots 0 to 7 of the built map: always eight positions |
| `ChannelMaps.LayoutChannelCount` | gear-lib/libuac/pulseaudio.c:524-554 | specification of the declared count: at most 8, and 0 exactly for the unknown layout |
| `ChannelMaps.DocumentedChannels` | gear-lib/libuac/pulseaudio.c:38-45 | the channels the enum comments list for each layout, in order; each list is as long as the layout's enum value |
| `ChannelMaps.LayoutMatchesDocumentation` | gear-lib/libuac/pulseaudio.c:513-556 | for every layout, the declared count equals the enum value and the number of channels the enum comments list, and the first `channels` slots are exactly those channels in order |
| `ChannelMaps.OnlyListedOverrides` | gear-lib/libuac/pulseaudio.c:515-549 | a slot differs from the FL, FR, FC, LFE, RL, RR, SL, SR defaults exactly at mono/0, 2.1/2, 4.0/3 and 4.1/4 |
| `ChannelMaps.DefaultLayoutsUnpatched` | gear-lib/libuac/pulseaudio.c:529-549 | stereo, 5.1 and 7.1 keep all eight default positions |
| `ChannelMaps.CountRoundTrip` | gear-lib/libuac/pulseaudio.c:513-556 | the map built for the layout of count c declares c channels when c is in {1, 2, 3, 4, 5, 6, 8}, and 0 otherwise |
| `ChannelMaps.ChannelMap.Build` | gear-lib/libuac/pulseaudio.c:513-556 | returns 0, sets the count and slots 0 to 7 to the layout's specification, leaves slots 8 and up unchanged |
| `SampleTime.SamplesToNs` | gear-lib/libuac/pulseaudio.c:82-85 | when the 64-bit product does not wrap, the result is frames·10⁹/rate rounded down (bracketed by rate) |
| `SampleTime.GetSampleTime` | gear-lib/libuac/pulseaudio.c:87-90 | timestamp plus duration is `now` modulo 2^64, and exactly `now` when the duration does not exceed `now` |
| `SampleTime.SamplesToNsMonotonic` | gear-lib/libuac/pulseaudio.c:82-85 | when frames·10⁹ does not wrap past 2^64, more frames never give a shorter duration |
| `SampleTime.SampleTimeEarlierForMoreFrames` | gear-lib/libuac/pulseaudio.c:87-90 | without wrap-around, a frame with more samples is stamped no later, and no timestamp is later than `now` |
| `SampleTime.DurationAt44100` | gear-lib/libuac/pulseaudio.c:82-85 | 1024 frames at 44100 Hz last 23219954 ns |
| `Negotiation.Negotiate` | gear-lib/libuac/pulseaudio.c:248-267 | the stored format is always one the module knows; a supported device format is kept, any other becomes FLOAT32LE; the rate is the device rate; a device count with a layout is kept with that layout, any other becomes 2 with layout UNKNOWN |
| `Negotiation.NegotiateImage` | gear-lib/libuac/pulseaudio.c:248-267 | a stored value comes from some device exactly when its format is known, its count is in {1, 2, 3, 4, 5, 6, 8}, and its layout is that count's layout or the pair (2, UNKNOWN) |
| `Negotiation.MapAgreesOnlyForKnownCounts` | gear-lib/libuac/pulseaudio.c:256-267 | the channel map of the stored layout declares the stored count if and only if the device count had a layout |
| `Negotiation.SevenChannelDeviceMismatch` | gear-lib/libuac/pulseaudio.c:256-267 | a 7-channel device is stored as 2 channels while its layout's map declares 0 |
| `Negotiation.NegotiateStereoFallback` | gear-lib/libuac/pulseaudio.c:256-267 | the corrected fallback: same format, rate and count as `Negotiate`, same layout for supported counts, never the UNKNOWN layout |
| `Negotiation.StereoFallbackMapAgrees` | gear-lib/libuac/pulseaudio.c:37-46 | with the corrected fallback the layout's map always declares the stored count |
| `Negotiation.StereoFallbackIdempotent` | gear-lib/libuac/pulseaudio.c:256-267 | with the corrected fallback, renegotiating the stored format, rate and count reproduces the stored value |
| `Negotiation.StereoS16Device` | gear-lib/libuac/pulseaudio.c:248-267 | a 44.1 kHz stereo S16LE device is kept unchanged with a FL, FR channel map |
| `FrameDelivery.ReadStep` | gear-lib/libuac/pulseaudio.c:429-460 | stale stream, no data, hole and frame each happen exactly under their condition; a frame has nbytes / bytes_per_frame frames (bracketed by bytes_per_frame), the context rate, the mapped format and the back-dated timestamp |
| `FrameDelivery.DropExactlyOnce` | gear-lib/libuac/pulseaudio.c:433-460 | the fragment is dropped exactly once when the live stream peeked a non-zero byte count, and never otherwise |
| `FrameDelivery.FrameEndsNow` | gear-lib/libuac/pulseaudio.c:447-448 | without wrap-around, a frame's timestamp plus its duration is the clock reading |
| `FrameDelivery.NegotiatedFramesHaveKnownFormat` | gear-lib/libuac/pulseaudio.c:445 | every frame built from a negotiated context carries a known sample format |
| `FrameDelivery.FrameExample` | gear-lib/libuac/pulseaudio.c:444-448 | 4096 bytes of 4-byte frames at 44.1 kHz give 1024 frames stamped 23219954 ns before now |
| `PulseBackend.PulseContext.constructor` | gear-lib/libuac/pulseaudio.c:561 | the calloc-zeroed context: no stream, format 0 (`PA_SAMPLE_U8`), rate, channels and bytes per frame 0, layout UNKNOWN; bound to the given main loop and connection |
| `PulseBackend.Mainloop.Signal` | gear-lib/libuac/pulseaudio.c:269-270 | `pa_threaded_mainloop_signal` as a counter: each call adds exactly one signal |
| `PulseBackend.Stream.Drop` | gear-lib/libuac/pulseaudio.c:436-460 | `pa_stream_drop` as a counter: each call adds exactly one drop |
| `PulseBackend.PulseContext.SourceInfo` | gear-lib/libuac/pulseaudio.c:237-271 | a stale connection or end-of-list leaves format, rate, channels and layout unchanged; otherwise they become `Negotiate` of the device spec; the main loop is signalled once unless the connection is stale |
| `PulseBackend.PulseContext.Read` | gear-lib/libuac/pulseaudio.c:422-463 | the outcome is `ReadStep` of the live state; the stream's drop count rises by exactly the outcome's drops; the main loop is signalled once unless the stream is stale |

## Left out

- The threaded-mainloop handshake and every blocking wait loop built on it (pulseaudio.c:103-146, 294-420, 485-511, 577-590, 664-674). These are cross-thread signalling around foreign calls. The model keeps only the number of signals a callback sends. In the four query helpers, the `PA_OPERATION_CANCELLED` test sits inside `while (state == PA_OPERATION_RUNNING)`, so it can never fire (pulseaudio.c:311-318). Those helpers therefore return 0 whenever an operation was created.
- PulseAudio library calls are outside the model: `pa_frame_size`, `pa_sample_spec_valid`, `pa_usec_to_bytes`, proplists, and stream/context creation and connection. `pa_stream_peek` is an input pair and `pa_stream_drop` is a counter. `bytes_per_frame` is a context field whose value is given.
- `uac_pa_start_stream` (pulseaudio.c:608-676) is not modelled beyond the channel-map builder it calls. Its remaining steps are library calls and a wait loop.
- The monotonic clock `os_gettime_ns` (pulseaudio.c:76-81) is replaced by the parameter `now`.
- `server_info_cb` and the list callbacks (pulseaudio.c:148-197, 273-292) only copy library structures and print.
- The stubs and no-op callbacks `uac_pa_stop_stream`, `uac_pa_query_frame`, `uac_pa_close`, the write/overflow/underflow/latency callbacks and the `pa_ops` table have no behaviour (pulseaudio.c:465-483, 678-699).
- `printf` output and the commented-out downstream hand-off (pulseaudio.c:451-457) are not modelled. The frame is returned from `Read` instead.
- The frame's borrowed data pointer is not modelled. The `bytes` argument of `read_cb` is not modelled either, because the code only prints it.
- `libuac.h` is not part of this model. The frame count is kept at `size_t` width, and the module's `sample_format` names are modelled as a datatype.
- The `default:` branch of `pulse_channel_map`, for enum values outside `speaker_layout`, cannot arise with a datatype.
- SampleTime.SamplesToNs: the contract describes the result only when frames·10⁹ fits in 64 bits. The body computes the wrapped product, but the contract says nothing about that case.

## Findings

| source | as written | input that shows it | evidently intended | confidence | as-written member | corrected member |
|---|---|---|---|---|---|---|
| gear-lib/libuac/pulseaudio.c:256-267 | an unsupported device channel count is replaced by 2 while the layout stays UNKNOWN; `pulse_channel_map(SPEAKERS_UNKNOWN)` then declares 0 channels, so the stream's sample spec (2 channels) and channel map (0 channels) disagree | a 7-channel S16LE device at 48 kHz | the fallback is stereo (enumeration comment, pulseaudio.c:38): record `SPEAKERS_STEREO` with the 2 channels so the map declares FL, FR | not executed; the mismatch is proved, but its effect on stream creation depends on the server library | `Negotiation.SevenChannelDeviceMismatch` | `Negotiation.StereoFallbackMapAgrees` |

`PulseBackend.PulseContext.SourceInfo` keeps the as-written behaviour, because it models what the
code does. `Negotiation.NegotiateStereoFallback` is the corrected policy. It agrees with
`Negotiate` on format, rate and channel count. So every frame-delivery property holds unchanged
under either policy.
