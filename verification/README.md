# QtAV player setup and packet timestamps, modelled in Dafny

This project models two parts of the QtAV media player library.

The first is the stream setup of the player's private state (`AVPlayer::Private`):
- the progress-notification interval;
- the repair of an audio codec context's channel count / channel layout pair;
- the audio and video setups that run whenever a track is selected.

An audio setup detaches the existing audio thread and refreshes its statistics. It then replaces the audio decoder and looks for an audio output device if there is none. It negotiates an audio format with the device and reopens the device only when that format differs from the device's current one. Last, it creates the audio thread once, hands it the decoder and sizes its packet queue. The video setup tries the configured video decoders in order and keeps the first that is created, prepares and opens. On success it creates the video thread once and sizes its queue the same way. Both queues are sized from the video frame rate.

The second part is `Packet`, the player's own compressed-frame record, and its conversion from and to FFmpeg's `AVPacket`:
- timestamp fallbacks and clamping;
- the choice of duration;
- the key/corrupt flag bits;
- seconds versus milliseconds;
- the lazily built `AVPacket` view;
- copy and assignment.

Files, one module each:
- `options.dfy`: `Option`, the stand-in for a pointer that may be null.
- `reals.dfy`: `qMax` on reals.
- `notify_precision.dfy`: `Internal::computeNotifyPrecision`.
- `queue_sizing.dfy`: the packet-queue threshold and capacity formula.
- `candidates.dfy`: first-match selection of video decoders and audio outputs.
- `audio_channels.dfy`: the codec context and `correct_audio_channels`.
- `audio_format.dfy`: audio formats, device capabilities, the negotiation and the output device.
- `player_private.dfy`: the class `Private` with the statistics and setup methods.
- `packet.dfy`: `Packet`, `AVPacket`, `fromAVPacket`, `asAVPacket`.

External collaborators are parameters. The demuxer contributes the selected stream index and its codec context (`null`/`None` when the stream is absent). Factories and decoders contribute one abstract trial outcome per configured id: created?, prepare ok?, open ok?. The audio device contributes its `isSupported` answers, its preferred values and whether `open()` succeeds for a format. The filters for a new thread are the list FilterManager would return. FFmpeg's `av_get_channel_layout_nb_channels` and `av_get_default_channel_layout` are uninterpreted arrow-typed fields of `LayoutLib`.

Points where the code's behaviour is easy to misread:
- Media longer than 60·1000 ms is notified every 500 ms. That is one minute, although the comment beside the test (src/AVPlayerPrivate.cpp:38) says ten minutes; the model follows the code.
- For media of at most 20 s with a frame rate above 1 fps, the interval is one frame time, truncated and clamped to [20, 250] ms (33 ms at 30 fps, 250 ms at 2 fps).
- When the audio decoder fails to open, the new, unopened decoder stays in `adec`.
- When a stream has no codec context, the previous decoder is kept, not torn down.
- A setup refreshes the statistics of its stream kind only when that kind's thread already exists.
- The first audio setup therefore sizes its queue from whatever video frame rate the statistics hold.

## Model

| member | source | states |
|---|---|---|
| NotifyPrecision.ComputeNotifyPrecision | src/AVPlayerPrivate.cpp:36-49 | the interval is always in [20, 500]; it is 500 exactly when the duration is unknown (≤ 0) or over one minute; it is 250 for durations in (20 s, 60 s]; it is at most 250 for every known duration up to one minute |
| NotifyPrecision.ShortMediaFollowsFrameTime | src/AVPlayerPrivate.cpp:42-48 | for a medium of at most 20 s with fps > 1, the interval is one frame time in ms, truncated and clamped to [20, 250]; it is 250 for fps ≤ 4 and 20 for fps ≥ 50 |
| NotifyPrecision.ShortMediaFollowsDuration | src/AVPlayerPrivate.cpp:42-48 | without a usable frame rate, a short medium is notified at least 80 times over its length (the interval is at most a 80th of the duration), but never more often than every 20 ms |
| NotifyPrecision.NotifyPrecisionExamples | src/AVPlayerPrivate.cpp:38-41 | boundary values: 0 → 500, 5000 ms → 62, 15000 ms at 30 fps → 33, 20000 ms → 250 (still the short class), 60000 ms → 250, 60001 ms → 500 |
| QueueSizing.QueueThreshold | src/AVPlayerPrivate.cpp:386 | the threshold is the floor of 0.61803·max(24, fps), hence at least 14 |
| QueueSizing.QueueCapacity | src/AVPlayerPrivate.cpp:387 | the capacity is the floor of 1.61803·threshold: strictly above any threshold ≥ 2 and at most twice it |
| QueueSizing.SizedQueue | src/AVPlayerPrivate.cpp:457-460 | the configuration applied to a queue satisfies 14 ≤ threshold < capacity for every frame rate, including 0 |
| QueueSizing.MinimumQueue | src/AVPlayerPrivate.cpp:386-387 | at or below 24 fps, including an unknown rate of 0, the queue is 14 / 22 packets |
| QueueSizing.SizingMonotone | src/AVPlayerPrivate.cpp:457-458 | a higher frame rate never gives a smaller threshold or capacity |
| QueueSizing.CapacityIsAboutOneSecond | src/AVPlayerPrivate.cpp:386-387 | for 24 to 1000 fps the capacity lies in (fps − 3, fps]: about one second of video |
| Candidates.FirstIndex | src/AVPlayerPrivate.cpp:413-428 | the first-match index: the element there satisfies the test, no earlier one does, and None means none does |
| Candidates.Discarded | src/AVPlayerPrivate.cpp:427 | exactly the created candidates that did not work are listed: every id listed is that of such a candidate, and every such candidate's id is listed |
| Candidates.SelectVideoDecoder | src/AVPlayerPrivate.cpp:413-428 | the decoder kept is the first candidate that is created and both prepares and opens; the factory is asked for the candidates up to it and for no later one; a null factory result is skipped; exactly the created candidates that failed are deleted; when none works, every candidate was tried |
| Candidates.SelectAudioOutput | src/AVPlayerPrivate.cpp:312-319 | the device kept is the one for the first id whose factory call returns a device |
| AudioChannels.CorrectedChannels | src/AVPlayerPrivate.cpp:52-63 | only a missing side is filled in: a count ≤ 0 from a non-zero layout, a zero layout from a positive count; a complete pair, or a pair with neither side, is left as it is |
| AudioChannels.CorrectionIdempotent | src/AVPlayerPrivate.cpp:52-63 | repairing a repaired pair changes nothing, whatever the FFmpeg functions answer |
| AudioChannels.CorrectionCompletes | src/AVPlayerPrivate.cpp:52-63 | assuming every non-empty layout has channels and every positive count has a default layout, the repair completes a pair exactly when at least one side is known |
| AudioChannels.CorrectAudioChannels | src/AVPlayerPrivate.cpp:52-63 | the context's pair becomes the repaired pair and nothing else changes; the result is true iff layout > 0 and channels > 0 afterwards |
| AudioFormats.NegotiatedFormat | src/AVPlayerPrivate.cpp:327-347 | the rate is the stream's; more than two channels always give the device's preferred layout; a planar stream format always gives the device's preferred sample format; each field is the stream's or the device's preferred one; a proposal the device supports is kept; otherwise exactly the fields the device rejects are replaced by its preferred values and the accepted ones are kept |
| AudioFormats.SupportedStreamKept | src/AVPlayerPrivate.cpp:327-347 | an interleaved stream with at most two channels whose own format the device supports is played in that format |
| AudioFormats.MultichannelIgnoresStreamLayout | src/AVPlayerPrivate.cpp:331-334 | with more than two channels, the stream's own layout does not influence the result |
| AudioFormats.NegotiateFormat | src/AVPlayerPrivate.cpp:327-347 | the field-by-field reassignment of the format yields the negotiated format |
| AudioFormats.AudioOutput.constructor | src/AVPlayerPrivate.cpp:314 | a device fresh from the factory has its capabilities and initial format, and is not open |
| AudioFormats.AudioOutput.Close | src/AVPlayerPrivate.cpp:350 | the device is closed |
| AudioFormats.AudioOutput.SetAudioFormat | src/AVPlayerPrivate.cpp:351 | the device's format becomes the given one |
| AudioFormats.AudioOutput.Open | src/AVPlayerPrivate.cpp:352 | opening succeeds as the device allows for its format, and is counted |
| PlayerPrivate.RefreshedVideoStatistics | src/AVPlayerPrivate.cpp:248-274 | without a codec context the video records become default records; otherwise availability is whether the stream is the selected one, frame rate, width and height come from the stream, and the decoder name is kept; audio statistics are untouched |
| PlayerPrivate.Private.constructor | src/AVPlayerPrivate.cpp:65-138 | no decoders, no device, no threads, default statistics, audio enabled, the configured id lists |
| PlayerPrivate.Private.InitAudioStatistics | src/AVPlayerPrivate.cpp:226-246 | without a codec context the audio records become default records; otherwise the context's channels are repaired, and availability, channels, rate, block align and frame size are taken from the repaired context |
| PlayerPrivate.Private.InitVideoStatistics | src/AVPlayerPrivate.cpp:248-274 | the statistics become the refreshed video statistics for the stream |
| PlayerPrivate.Private.DetachAudioThread | src/AVPlayerPrivate.cpp:281-286 | an existing audio thread is emptied and loses its decoder; its audio statistics are refreshed: default records without a codec context, otherwise available, with channels, rate, block align and frame size from the repaired context; without a thread nothing changes |
| PlayerPrivate.Private.ChooseAudioOutput | src/AVPlayerPrivate.cpp:311-320 | the device becomes a fresh one for the first id the factory creates, or stays null when there is none |
| PlayerPrivate.Private.ConfigureAudioOutput | src/AVPlayerPrivate.cpp:326-358 | the channels are repaired; the device is closed, given the negotiated format and reopened exactly when its format differs from it; a device that fails to reopen is dropped and the result is false |
| PlayerPrivate.Private.SetUpAudioOutput | src/AVPlayerPrivate.cpp:311-359 | the channels are repaired exactly when there is a device to configure; an existing device that already has the negotiated format is kept untouched (format, open state, no open() call); one whose format differs is closed, given the negotiated format and opened once, the result is whether that open succeeds, and it is dropped when it fails; without a device, the factory's first device (its id, capabilities and initial format) is configured the same way; with none, the result is true and there is no device |
| PlayerPrivate.Private.AttachAudioDecoder | src/AVPlayerPrivate.cpp:360-389 | the resampler gets the device's format and the stream's; the decoder is prepared; the thread is created if absent, with the filters, and reused otherwise; it gets the decoder and a queue sized from the video frame rate |
| PlayerPrivate.Private.SetupAudioThread | src/AVPlayerPrivate.cpp:276-391 | without a codec context: false, and the old decoder and device are kept; a decoder that does not open: one AudioCodecNotFound error and false; in both of those cases the device is not touched; otherwise the device is selected and configured as above (kept untouched when it already has the negotiated format, else closed, reformatted and reopened, the result being whether that open succeeds and a failed reopen dropping it); on success the thread, created once, holds the open prepared decoder and a queue sized from the video frame rate; a failed reopen leaves the opened, unprepared decoder; the channels are repaired exactly when the thread existed or a device is configured; the audio statistics are refreshed only when the thread existed, and then only the decoder name is set once the decoder opens; the video side is untouched |
| PlayerPrivate.Private.SetupVideoThread | src/AVPlayerPrivate.cpp:393-462 | without a codec context: false, and the old decoder is kept; otherwise the decoder is the first working candidate, or none, with exactly one VideoCodecNotFound error and false; on success the thread, created once, holds the decoder and a sized queue; the statistics are refreshed only when the thread existed, and then only the decoder name is set, on success; the audio side is untouched |
| PlayerPrivate.Private.SetupAudioAgain | src/AVPlayerPrivate.cpp:348-358 | running the audio setup again when the channels are already repaired and the device already holds the negotiated format, as a successful setup leaves them, succeeds and neither replaces, reconfigures, closes nor reopens the device |
| Packets.SetFlag | src/Packet.cpp:213-216 | setting a flag bit sets it and leaves the other flag unchanged |
| Packets.Trunc | src/Packet.cpp:147-149 | converting to an integer truncates toward zero |
| Packets.Decoded | src/Packet.cpp:74-110 | pts and dts are never negative; a present pts or dts is its value × time base, clamped at 0; an absent pts falls back to dts, an absent dts to pts, both absent give 0; the duration is the convergence duration × time base for a key frame that has a positive one, else the positive duration × time base, else 0; key and corrupt are the flag bits; position and data are copied |
| Packets.WithFlags | src/Packet.cpp:213-216 | the view has KEY iff the packet is a key frame or the base had it, and CORRUPT likewise |
| Packets.MillisecondsExact | src/Packet.cpp:147-149 | a time in whole non-negative milliseconds converts to ms without loss |
| Packets.DecodeEncoded | src/Packet.cpp:74-221 | reading back a fresh packet's AVPacket view with time base 1/1000 gives the packet back, for times in whole non-negative milliseconds |
| Packets.EncodeDecoded | src/Packet.cpp:74-221 | reading a normalised ms AVPacket and taking its view again gives it back; a normalised packet has both timestamps, no convergence duration and only the KEY/CORRUPT flags |
| Packets.Packet.constructor | src/Packet.cpp:153-161 | no key frame, not corrupt, zero times and position, empty data, no view |
| Packets.Packet.Copy | src/Packet.cpp:164-174 | every field equals the source's |
| Packets.Packet.Assign | src/Packet.cpp:176-189 | every field equals the source's; assigning a packet to itself changes nothing |
| Packets.Packet.AsAVPacket | src/Packet.cpp:195-222 | an initialized view only gets the current data and size; otherwise the view (a fresh one if there was none) gets ms times, the position, the KEY/CORRUPT flags and the data; either way it is then initialized; the public fields are unchanged |
| Packets.FillFromAVPacket | src/Packet.cpp:69-151 | a null packet or AVPacket gives false and changes nothing; otherwise the fields are the decoded ones and the initialized view is the source's properties and data with ms times |
| Packets.FromAVPacket | src/Packet.cpp:60-66 | a fresh packet: the decoded one, or a default packet for a null AVPacket |

## Left out

- Logging (`qDebug`, `qWarning`) and signal/slot wiring are left out. This covers `connect`/`disconnect` and the decoder's error signal; the emitted errors are the `errors` log.
- Worker threads and concurrency are left out. So are `read_thread->setAudioThread`/`setVideoThread`, `setClock`, `setStatistics`, `setOutputSet` and `setVideoCapture`. The threads only record their decoder, queue and filters.
- The FilterManager singleton is a parameter: the filter list a new thread installs.
- `athread->setOutput(0)` and `player->setAudioOutput(ao)` are left out; AVPlayer.cpp is not part of this model.
- Brightness, contrast and saturation on the video thread are left out; they are pass-through setters.
- `demuxer.setStreamIndex` is left out: the selected stream index and codec context are inputs.
- Decoder options (`ac_opt`, `vc_opt`) and codec-context attachment are left out.
- `initBaseStatistics`, `initCommonStatistics` and `initStatistics` are left out. They format strings, times and metadata from FFmpeg structures, and they include the `notify_interval` assignment. Only the records the setups reset or fill are modelled.
- Statistics.cpp is not part of this model. Default statistics records are taken as zero, false and empty.
- The destructor and its delete order are left out.
- The QtAV/FFmpeg conversions of sample formats and channel layouts are taken as the identity. So are the channel count that `AudioFormat::setChannelLayout` derives, and the resampler's other fields.
- IEEE doubles are left out. Times, frame rates and the golden-ratio constants are exact reals, so there are no NaN frame rates (`avg_frame_rate` 0/0), no rounding, and no overflow in `int(...)` or in the 64-bit fields.
- `Packet` follows the branch without `AVPACKET_REF`. `av_packet_ref`/`unref`, side data and the zeroed padding after copied bytes are left out. `data` is a byte sequence, and a null data pointer is the empty sequence.
- `av_init_packet` leaves an AVPacket's data and size unset. The model takes them as empty.
- `QSharedDataPointer` reference counting and detaching are left out. Copy-on-write makes each packet see its own private part, so `d` is a value field.
- The inner view's `convergence_duration` is copied in time-base units, not converted to ms. The model keeps it as the source does.

## Findings

None.
