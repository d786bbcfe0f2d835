/**
 * The setup rules of the player's private state (AVPlayer::Private): the
 * audio and video stream threads, their decoders, the audio output device,
 * the statistics the setups refresh and the errors they emit.
 *
 * The demuxer is represented by what setup reads from it: the index of the
 * selected stream and its codec context (null when the stream is absent).
 * What the decoder and output factories and the created instances do is given
 * as abstract trial outcomes, one per configured id, in configured order.
 */
module PlayerPrivate {
  import opened Options
  import opened QueueSizing
  import opened Candidates
  import opened AudioFormats
  import opened AudioChannels

  type FilterId = int

  /** The errors the setups emit on the player's error signal. */
  datatype AVError = AudioCodecNotFound | VideoCodecNotFound

  /** The part of Statistics::Common the setups write. */
  datatype Common = Common(available: bool, decoder: string)
  /** The part of Statistics::AudioOnly taken from the codec context. */
  datatype AudioOnly = AudioOnly(channels: int, sampleRate: int, blockAlign: int, frameSize: int)
  /** The part of Statistics::VideoOnly taken from the stream. */
  datatype VideoOnly = VideoOnly(frameRate: real, width: int, height: int)
  datatype Statistics = Statistics(audio: Common, audioOnly: AudioOnly, video: Common, videoOnly: VideoOnly)

  /** Default-constructed statistics records. */
  const DefaultCommon := Common(false, "")
  const DefaultAudioOnly := AudioOnly(0, 0, 0, 0)
  const DefaultVideoOnly := VideoOnly(0.0, 0, 0)
  const DefaultStatistics := Statistics(DefaultCommon, DefaultAudioOnly, DefaultCommon, DefaultVideoOnly)

  /** What the video statistics read from the video stream and its codec context. */
  datatype VideoParams = VideoParams(avgFrameRate: real, width: int, height: int)

  /** What a new AudioDecoder does with the current stream: its name and whether open() succeeds. */
  datatype AudioDecoderTrial = AudioDecoderTrial(name: string, opens: bool)

  /** The live audio decoder and the formats its resampler was given. */
  datatype AudioDecoder = AudioDecoder(
    name: string, isOpen: bool, prepared: bool,
    resamplerIn: Option<StreamAudio>, resamplerOut: Option<AudioFormat>)

  /** The live video decoder: the candidate id it was created from and its name. */
  datatype VideoDecoder = VideoDecoder(id: DecoderId, name: string)

  /**
   * A stream thread: its decoder, the number of packets waiting in its packet
   * queue, the queue's sizing, and the filters installed when it was created.
   */
  datatype StreamThread<D> = StreamThread(decoder: Option<D>, queued: nat, queue: QueueConfig, filters: seq<FilterId>)

  /** A thread with its queue emptied and its decoder detached, as a setup leaves it first. */
  function Detached<D>(t: StreamThread<D>): StreamThread<D> {
    t.(decoder := None, queued := 0)
  }

  /** The statistics initVideoStatistics leaves for stream `s`. */
  function RefreshedVideoStatistics(st: Statistics, s: int, videoStream: int, vctx: Option<VideoParams>): (r: Statistics)
    ensures r.audio == st.audio && r.audioOnly == st.audioOnly
    ensures vctx.None? ==> r.video == DefaultCommon && r.videoOnly == DefaultVideoOnly
    ensures vctx.Some? ==> r.video.decoder == st.video.decoder && r.videoOnly.frameRate == vctx.value.avgFrameRate
    ensures vctx.Some? ==> (r.video.available <==> s == videoStream)
    ensures vctx.Some? ==> r.videoOnly.width == vctx.value.width && r.videoOnly.height == vctx.value.height
  {
    match vctx
    case None => st.(video := DefaultCommon, videoOnly := DefaultVideoOnly)
    case Some(p) => st.(video := st.video.(available := s == videoStream), videoOnly := VideoOnly(p.avgFrameRate, p.width, p.height))
  }

  class Private {
    /** The video decoder ids to try, in order, and the audio output ids, fixed at construction. */
    const vcIds: seq<DecoderId>
    const aoIds: seq<OutputId>
    var aoEnabled: bool
    var adec: Option<AudioDecoder>
    var vdec: Option<VideoDecoder>
    var ao: AudioOutput?
    var athread: Option<StreamThread<AudioDecoder>>
    var vthread: Option<StreamThread<VideoDecoder>>
    var statistics: Statistics
    /** The errors emitted on the player's error signal, oldest first. */
    var errors: seq<AVError>

    ghost predicate Valid()
      reads this, ao
    {
      && (athread.Some? ==> Sized(athread.value.queue))
      && (vthread.Some? ==> Sized(vthread.value.queue))
      && (vdec.Some? ==> vdec.value.id in vcIds)
      && (ao != null ==> ao.id in aoIds)
    }

    constructor (vcIds: seq<DecoderId>, aoIds: seq<OutputId>)
      ensures Valid()
      ensures this.vcIds == vcIds && this.aoIds == aoIds && aoEnabled
      ensures adec == None && vdec == None && ao == null
      ensures athread == None && vthread == None
      ensures statistics == DefaultStatistics && errors == []
    {
      this.vcIds := vcIds;
      this.aoIds := aoIds;
      aoEnabled := true;
      adec, vdec, ao := None, None, null;
      athread, vthread := None, None;
      statistics := DefaultStatistics;
      errors := [];
    }

    /** initAudioStatistics for stream `s`; repairs the codec context's channels. */
    method InitAudioStatistics(s: int, audioStream: int, avctx: AudioCodecContext?, lib: LayoutLib)
      modifies this`statistics, avctx
      ensures avctx == null ==> statistics == old(statistics).(audio := DefaultCommon, audioOnly := DefaultAudioOnly)
      ensures avctx != null ==>
        && avctx.ChannelPair() == CorrectedChannels(old(avctx.ChannelPair()), lib)
        && avctx.sampleRate == old(avctx.sampleRate) && avctx.sampleFormat == old(avctx.sampleFormat)
        && avctx.blockAlign == old(avctx.blockAlign) && avctx.frameSize == old(avctx.frameSize)
        && statistics == old(statistics).(
             audio := old(statistics.audio).(available := s == audioStream),
             audioOnly := AudioOnly(avctx.channels, avctx.sampleRate, avctx.blockAlign, avctx.frameSize))
    {
      if avctx == null {
        statistics := statistics.(audio := DefaultCommon, audioOnly := DefaultAudioOnly);
        return;
      }
      statistics := statistics.(audio := statistics.audio.(available := s == audioStream));
      var _ := CorrectAudioChannels(avctx, lib);
      statistics := statistics.(audioOnly := AudioOnly(avctx.channels, avctx.sampleRate, avctx.blockAlign, avctx.frameSize));
    }

    /** initVideoStatistics for stream `s`. */
    method InitVideoStatistics(s: int, videoStream: int, vctx: Option<VideoParams>)
      modifies this`statistics
      ensures statistics == RefreshedVideoStatistics(old(statistics), s, videoStream, vctx)
    {
      if vctx.None? {
        statistics := statistics.(video := DefaultCommon, videoOnly := DefaultVideoOnly);
        return;
      }
      statistics := statistics.(video := statistics.video.(available := s == videoStream));
      var p := vctx.value;
      statistics := statistics.(videoOnly := VideoOnly(p.avgFrameRate, p.width, p.height));
    }

    /** The audio output search of setupAudioThread: runs only without a device and with audio enabled. */
    method ChooseAudioOutput(outputs: seq<OutputTrial>)
      requires ao == null && aoEnabled
      requires OutputTrialsOf(aoIds, outputs)
      modifies this`ao
      ensures FirstIndex(outputs, Created).None? ==> ao == null
      ensures FirstIndex(outputs, Created).Some? ==>
        var t := outputs[FirstIndex(outputs, Created).value];
        && ao != null && fresh(ao)
        && ao.id == t.id && ao.id in aoIds && ao.caps == t.device.value.caps && ao.format == t.device.value.format
        && !ao.isOpen && ao.openCalls == 0
    {
      var found := SelectAudioOutput(outputs);
      if found.Some? {
        var t := outputs[found.value];
        ao := new AudioOutput(t.id, t.device.value);
      }
    }

    /**
     * The device part of setupAudioThread: repairs the channels, negotiates the
     * format, and closes, reconfigures and reopens the device only when its
     * format differs from the negotiated one. A device that fails to reopen is
     * dropped.
     */
    method ConfigureAudioOutput(avctx: AudioCodecContext, lib: LayoutLib) returns (ok: bool)
      requires ao != null
      modifies this`ao, ao, avctx`channels, avctx`channelLayout
      ensures avctx.ChannelPair() == CorrectedChannels(old(avctx.ChannelPair()), lib)
      ensures old(ao).format == NegotiatedFormat(avctx.Audio(), old(ao).caps)
      ensures old(ao.format) == old(ao).format ==> ok && ao == old(ao) && ao.isOpen == old(ao.isOpen) && ao.openCalls == old(ao.openCalls)
      ensures old(ao.format) != old(ao).format ==>
        && old(ao).openCalls == old(ao.openCalls) + 1
        && ok == old(ao).caps.opens(old(ao).format) && old(ao).isOpen == ok
        && ao == (if ok then old(ao) else null)
    {
      var _ := CorrectAudioChannels(avctx, lib);
      var af := NegotiateFormat(avctx.Audio(), ao.caps);
      ok := true;
      if ao.format != af {
        ao.Close();
        ao.SetAudioFormat(af);
        ok := ao.Open();
        if !ok {
          ao := null;
        }
      }
    }

    /**
     * setupAudioThread. `audioStream` is the demuxer's audio stream after the
     * track was selected and `avctx` its codec context (null: no audio stream).
     */
    method SetupAudioThread(audioStream: int, avctx: AudioCodecContext?, lib: LayoutLib,
                            decoder: AudioDecoderTrial, outputs: seq<OutputTrial>, filters: seq<FilterId>)
      returns (ok: bool)
      requires Valid() && OutputTrialsOf(aoIds, outputs)
      modifies this, ao, avctx
      ensures Valid()
      ensures vdec == old(vdec) && vthread == old(vthread) && aoEnabled == old(aoEnabled)
      ensures statistics.video == old(statistics.video) && statistics.videoOnly == old(statistics.videoOnly)
      // the thread is created once, on success, and otherwise reused with its filters
      ensures ok ==> athread == Some(StreamThread(adec, 0, SizedQueue(statistics.videoOnly.frameRate),
                                                  if old(athread).Some? then old(athread).value.filters else filters))
      ensures !ok ==> athread == if old(athread).Some? then Some(Detached(old(athread).value)) else None
      // no codec context: nothing but the reset of the thread and its statistics
      ensures avctx == null ==> !ok && adec == old(adec) && errors == old(errors)
      ensures avctx == null && old(athread).Some? ==> statistics.audio == DefaultCommon && statistics.audioOnly == DefaultAudioOnly
      ensures avctx == null && old(athread).None? ==> statistics == old(statistics)
      ensures avctx != null ==>
        && avctx.sampleRate == old(avctx.sampleRate) && avctx.sampleFormat == old(avctx.sampleFormat)
        && avctx.blockAlign == old(avctx.blockAlign) && avctx.frameSize == old(avctx.frameSize)
      // the channels are repaired when the thread existed or a device is configured, and only then
      ensures avctx != null ==>
        avctx.ChannelPair() ==
          if old(athread).Some? || (decoder.opens && (old(ao) != null || (aoEnabled && FirstIndex(outputs, Created).Some?)))
          then CorrectedChannels(old(avctx.ChannelPair()), lib)
          else old(avctx.ChannelPair())
      // the statistics: the audio ones refreshed when the thread existed, then the decoder name once it opens
      ensures avctx != null ==>
        statistics ==
          var refreshed := if old(athread).Some?
            then old(statistics).(audio := old(statistics.audio).(available := true),
                                  audioOnly := AudioOnly(avctx.channels, avctx.sampleRate, avctx.blockAlign, avctx.frameSize))
            else old(statistics);
          if decoder.opens then refreshed.(audio := refreshed.audio.(decoder := decoder.name)) else refreshed
      // a device that fails to reopen leaves the opened decoder unprepared
      ensures avctx != null && decoder.opens && !ok ==> adec == Some(AudioDecoder(decoder.name, true, false, None, None))
      // the decoder is always replaced; one that does not open is kept, unopened, and reported once
      ensures avctx != null && !decoder.opens ==>
        && !ok && adec == Some(AudioDecoder(decoder.name, false, false, None, None))
        && errors == old(errors) + [AudioCodecNotFound]
      ensures avctx != null && decoder.opens ==> errors == old(errors) && statistics.audio.decoder == decoder.name
      ensures ok ==> adec == Some(AudioDecoder(decoder.name, true, true, Some(avctx.Audio()),
                                               if ao != null then Some(ao.format) else None))
      // no codec context, or a decoder that does not open: the device is not touched
      ensures (avctx == null || !decoder.opens) ==> ao == old(ao) && (ao != null ==> unchanged(ao))
      // otherwise an existing device is kept; it is closed and reopened only when its format
      // differs from the negotiated one, and dropped when that open fails
      ensures avctx != null && decoder.opens && old(ao) != null ==>
        var af := NegotiatedFormat(avctx.Audio(), old(ao).caps);
        if old(ao.format) == af then
          ok && ao == old(ao) && ao.format == af && ao.isOpen == old(ao.isOpen) && ao.openCalls == old(ao.openCalls)
        else
          && old(ao).format == af && old(ao).openCalls == old(ao.openCalls) + 1
          && (ok <==> old(ao).caps.opens(af)) && old(ao).isOpen == ok
          && ao == (if ok then old(ao) else null)
      // without a device, the factory's first device is configured the same way
      ensures avctx != null && decoder.opens && old(ao) == null && aoEnabled && FirstIndex(outputs, Created).Some? ==>
        var t := outputs[FirstIndex(outputs, Created).value];
        var d := t.device.value;
        var af := NegotiatedFormat(avctx.Audio(), d.caps);
        && (ok <==> d.format == af || d.caps.opens(af))
        && (ok ==> ao != null && fresh(ao) && ao.id == t.id && ao.caps == d.caps && ao.format == af
                   && ao.isOpen == (d.format != af) && ao.openCalls == (if d.format == af then 0 else 1))
        && (!ok ==> ao == null)
      ensures avctx != null && decoder.opens && old(ao) == null && (!aoEnabled || FirstIndex(outputs, Created).None?) ==>
        ok && ao == null
    {
      DetachAudioThread(audioStream, avctx, lib);
      if avctx == null {
        return false;
      }
      adec := Some(AudioDecoder(decoder.name, decoder.opens, false, None, None));
      if !decoder.opens {
        errors := errors + [AudioCodecNotFound];
        return false;
      }
      statistics := statistics.(audio := statistics.audio.(decoder := decoder.name));
      ok := SetUpAudioOutput(avctx, lib, outputs);
      // a pair repaired by the detach step is not changed by the second repair
      CorrectionIdempotent(old(avctx.ChannelPair()), lib);
      if !ok {
        return;
      }
      AttachAudioDecoder(avctx, filters);
      ok := true;
    }

    /**
     * The output part of setupAudioThread: finds a device when there is none
     * (and audio is enabled), then configures it for the stream.
     */
    method SetUpAudioOutput(avctx: AudioCodecContext, lib: LayoutLib, outputs: seq<OutputTrial>) returns (ok: bool)
      requires OutputTrialsOf(aoIds, outputs) && (ao != null ==> ao.id in aoIds)
      modifies this`ao, ao, avctx`channels, avctx`channelLayout
      ensures ao != null ==> ao.id in aoIds
      // the channels are repaired exactly when there is a device to configure
      ensures avctx.ChannelPair() ==
        if old(ao) != null || (aoEnabled && FirstIndex(outputs, Created).Some?) then CorrectedChannels(old(avctx.ChannelPair()), lib)
        else old(avctx.ChannelPair())
      ensures avctx.sampleRate == old(avctx.sampleRate) && avctx.sampleFormat == old(avctx.sampleFormat)
      ensures avctx.blockAlign == old(avctx.blockAlign) && avctx.frameSize == old(avctx.frameSize)
      // an existing device is kept; it is closed and reopened only when its format differs from
      // the negotiated one, and dropped when that open fails
      ensures old(ao) != null ==>
        var af := NegotiatedFormat(avctx.Audio(), old(ao).caps);
        if old(ao.format) == af then
          ok && ao == old(ao) && ao.format == af && ao.isOpen == old(ao.isOpen) && ao.openCalls == old(ao.openCalls)
        else
          && old(ao).format == af && old(ao).openCalls == old(ao.openCalls) + 1
          && (ok <==> old(ao).caps.opens(af)) && old(ao).isOpen == ok
          && ao == (if ok then old(ao) else null)
      // without a device, the factory's first device is configured the same way
      ensures old(ao) == null && aoEnabled && FirstIndex(outputs, Created).Some? ==>
        var t := outputs[FirstIndex(outputs, Created).value];
        var d := t.device.value;
        var af := NegotiatedFormat(avctx.Audio(), d.caps);
        && (ok <==> d.format == af || d.caps.opens(af))
        && (ok ==> ao != null && fresh(ao) && ao.id == t.id && ao.caps == d.caps && ao.format == af
                   && ao.isOpen == (d.format != af) && ao.openCalls == (if d.format == af then 0 else 1))
        && (!ok ==> ao == null)
      ensures old(ao) == null && (!aoEnabled || FirstIndex(outputs, Created).None?) ==> ok && ao == null
    {
      if ao == null && aoEnabled {
        ChooseAudioOutput(outputs);
      }
      ok := true;
      if ao != null {
        ok := ConfigureAudioOutput(avctx, lib);
      }
    }

    /** The first step of setupAudioThread: an existing thread is emptied and detached, and its statistics refreshed. */
    method DetachAudioThread(audioStream: int, avctx: AudioCodecContext?, lib: LayoutLib)
      modifies this`athread, this`statistics, avctx
      ensures athread == if old(athread).Some? then Some(Detached(old(athread).value)) else None
      ensures old(athread).None? ==> statistics == old(statistics) && (avctx != null ==> avctx.Audio() == old(avctx.Audio()))
      ensures old(athread).Some? && avctx == null ==>
        statistics == old(statistics).(audio := DefaultCommon, audioOnly := DefaultAudioOnly)
      ensures old(athread).Some? && avctx != null ==>
        && avctx.ChannelPair() == CorrectedChannels(old(avctx.ChannelPair()), lib)
        && statistics == old(statistics).(
             audio := old(statistics.audio).(available := true),
             audioOnly := AudioOnly(avctx.channels, avctx.sampleRate, avctx.blockAlign, avctx.frameSize))
      ensures avctx != null ==>
        && avctx.sampleRate == old(avctx.sampleRate) && avctx.sampleFormat == old(avctx.sampleFormat)
        && avctx.blockAlign == old(avctx.blockAlign) && avctx.frameSize == old(avctx.frameSize)
    {
      if athread.Some? {
        athread := Some(Detached(athread.value));
        InitAudioStatistics(audioStream, audioStream, avctx, lib);
      }
    }

    /**
     * The last steps of setupAudioThread: the resampler gets the device's format
     * and the stream's, the decoder is prepared, the thread is created if absent
     * and given the decoder, and its queue is sized from the video frame rate.
     */
    method AttachAudioDecoder(avctx: AudioCodecContext, filters: seq<FilterId>)
      requires adec.Some?
      requires athread.Some? ==> athread.value.queued == 0
      modifies this`adec, this`athread
      ensures adec == Some(old(adec).value.(prepared := true, resamplerIn := Some(avctx.Audio()),
                                            resamplerOut := if ao != null then Some(ao.format) else None))
      ensures athread == Some(StreamThread(adec, 0, SizedQueue(statistics.videoOnly.frameRate),
                                           if old(athread).Some? then old(athread).value.filters else filters))
    {
      var out := if ao != null then Some(ao.format) else None;
      adec := Some(adec.value.(resamplerOut := out, resamplerIn := Some(avctx.Audio())));
      adec := Some(adec.value.(prepared := true));
      if athread.None? {
        // PacketQueue's own initial sizing is not part of this model; it is overwritten below.
        athread := Some(StreamThread(None, 0, QueueConfig(0, 0), filters));
      }
      athread := Some(athread.value.(decoder := adec));
      // the audio queue is sized from the video frame rate
      athread := Some(athread.value.(queue := SizedQueue(statistics.videoOnly.frameRate)));
    }

    /**
     * setupVideoThread. `videoStream` is the demuxer's video stream after the
     * track was selected and `vctx` what its codec context gives (None: no video stream).
     */
    method SetupVideoThread(videoStream: int, vctx: Option<VideoParams>, trials: seq<DecoderTrial>, filters: seq<FilterId>)
      returns (ok: bool)
      requires Valid() && DecoderTrialsOf(vcIds, trials)
      modifies this
      ensures Valid()
      ensures adec == old(adec) && ao == old(ao) && athread == old(athread) && aoEnabled == old(aoEnabled)
      ensures statistics.audio == old(statistics.audio) && statistics.audioOnly == old(statistics.audioOnly)
      ensures statistics.videoOnly ==
        (if old(vthread).Some? then RefreshedVideoStatistics(old(statistics), videoStream, videoStream, vctx) else old(statistics)).videoOnly
      // no codec context: the old decoder is not touched
      ensures vctx.None? ==> !ok && vdec == old(vdec) && errors == old(errors)
      ensures vctx.None? && old(vthread).Some? ==> statistics.video == DefaultCommon && statistics.videoOnly == DefaultVideoOnly
      // the first candidate that is created, prepares and opens becomes the decoder
      ensures vctx.Some? ==> (ok <==> FirstIndex(trials, Works).Some?)
      ensures ok ==>
        var t := trials[FirstIndex(trials, Works).value];
        && vdec == Some(VideoDecoder(t.id, t.name)) && statistics.video.decoder == t.name
        && errors == old(errors)
      ensures vctx.Some? && !ok ==> vdec == None && errors == old(errors) + [VideoCodecNotFound]
      // the thread is created once, on success, and otherwise reused with its filters
      ensures ok ==> vthread == Some(StreamThread(vdec, 0, SizedQueue(statistics.videoOnly.frameRate),
                                                  if old(vthread).Some? then old(vthread).value.filters else filters))
      ensures !ok ==> vthread == if old(vthread).Some? then Some(Detached(old(vthread).value)) else None
      // the statistics: refreshed only when the thread existed, then only the decoder name on success
      ensures statistics ==
        var refreshed := if old(vthread).Some? then RefreshedVideoStatistics(old(statistics), videoStream, videoStream, vctx) else old(statistics);
        if ok then refreshed.(video := refreshed.video.(decoder := vdec.value.name)) else refreshed
    {
      if vthread.Some? {
        vthread := Some(Detached(vthread.value));
        InitVideoStatistics(videoStream, videoStream, vctx);
      }
      if vctx.None? {
        return false;
      }
      vdec := None;
      var found, tried, destroyed := SelectVideoDecoder(trials);
      if found.Some? {
        var t := trials[found.value];
        vdec := Some(VideoDecoder(t.id, t.name));
      }
      if vdec.None? {
        errors := errors + [VideoCodecNotFound];
        return false;
      }
      statistics := statistics.(video := statistics.video.(decoder := vdec.value.name));
      if vthread.None? {
        // PacketQueue's own initial sizing is not part of this model; it is overwritten below.
        vthread := Some(StreamThread(None, 0, QueueConfig(0, 0), filters));
      }
      vthread := Some(vthread.value.(decoder := vdec));
      vthread := Some(vthread.value.(queue := SizedQueue(statistics.videoOnly.frameRate)));
      ok := true;
    }

    /**
     * Running the audio setup again once it has succeeded with a device: the
     * channel pair is already repaired (CorrectionIdempotent shows a successful
     * setup leaves it so) and the device already holds the negotiated format.
     * The device is then neither replaced nor reopened.
     */
    method SetupAudioAgain(audioStream: int, avctx: AudioCodecContext, lib: LayoutLib,
                           decoder: AudioDecoderTrial, outputs: seq<OutputTrial>, filters: seq<FilterId>)
      returns (ok: bool)
      requires Valid() && OutputTrialsOf(aoIds, outputs) && decoder.opens
      requires avctx.ChannelPair() == CorrectedChannels(avctx.ChannelPair(), lib)
      requires ao != null && ao.format == NegotiatedFormat(avctx.Audio(), ao.caps)
      modifies this, ao, avctx
      ensures Valid()
      ensures ok && ao == old(ao) && ao.format == old(ao.format) && ao.isOpen == old(ao.isOpen) && ao.openCalls == old(ao.openCalls)
      ensures avctx.Audio() == old(avctx.Audio())
    {
      ok := SetupAudioThread(audioStream, avctx, lib, decoder, outputs, filters);
    }
  }
}
