/**
 * Audio formats, the capabilities of an audio output device, and the format
 * negotiation of setupAudioThread. A sample format carries whether it is planar;
 * a channel layout is an FFmpeg channel mask (QtAV's conversions between its own
 * enumerations and FFmpeg's are taken as the identity).
 */
module AudioFormats {

  datatype SampleFormat = SampleFormat(code: int, planar: bool)

  /** An FFmpeg channel layout bit mask (uint64_t); 0 means unknown. */
  type ChannelLayout = nat

  /** The fields of QtAV's AudioFormat that the player sets and compares. */
  datatype AudioFormat = AudioFormat(sampleRate: int, sampleFormat: SampleFormat, channelLayout: ChannelLayout)

  /** The audio parameters of the stream's codec context. */
  datatype StreamAudio = StreamAudio(sampleRate: int, sampleFormat: SampleFormat, channels: int, channelLayout: ChannelLayout)

  /**
   * What an audio output device answers: the three isSupported overloads, its
   * preferred sample format and channel layout, and whether open() succeeds
   * once the device is configured with a given format.
   */
  datatype DeviceCaps = DeviceCaps(
    supportsFormat: AudioFormat -> bool,
    supportsSampleFormat: SampleFormat -> bool,
    supportsLayout: ChannelLayout -> bool,
    preferredSampleFormat: SampleFormat,
    preferredLayout: ChannelLayout,
    opens: AudioFormat -> bool)

  /** A device as the output factory creates it: its capabilities and its initial format. */
  datatype DeviceSpec = DeviceSpec(caps: DeviceCaps, format: AudioFormat)

  /**
   * The format before the support checks: the stream's rate and sample format,
   * the device's layout for more than two channels, and the device's sample
   * format in place of a planar one.
   */
  function Proposed(s: StreamAudio, caps: DeviceCaps): AudioFormat {
    AudioFormat(
      s.sampleRate,
      if s.sampleFormat.planar then caps.preferredSampleFormat else s.sampleFormat,
      if s.channels > 2 then caps.preferredLayout else s.channelLayout)
  }

  /** When the device rejects the whole format, each field it rejects falls back to its preferred value. */
  function WithFallbacks(af: AudioFormat, caps: DeviceCaps): AudioFormat {
    if caps.supportsFormat(af) then af
    else
      af.(sampleFormat := if caps.supportsSampleFormat(af.sampleFormat) then af.sampleFormat else caps.preferredSampleFormat,
          channelLayout := if caps.supportsLayout(af.channelLayout) then af.channelLayout else caps.preferredLayout)
  }

  /** The format the device is given for stream `s`. */
  function NegotiatedFormat(s: StreamAudio, caps: DeviceCaps): (af: AudioFormat)
    ensures af.sampleRate == s.sampleRate
    ensures s.channels > 2 ==> af.channelLayout == caps.preferredLayout
    ensures s.sampleFormat.planar ==> af.sampleFormat == caps.preferredSampleFormat
    ensures af.sampleFormat == s.sampleFormat || af.sampleFormat == caps.preferredSampleFormat
    ensures af.channelLayout == s.channelLayout || af.channelLayout == caps.preferredLayout
    ensures caps.supportsFormat(Proposed(s, caps)) ==> af == Proposed(s, caps)
    ensures !caps.supportsFormat(Proposed(s, caps)) ==>
      && (caps.supportsSampleFormat(af.sampleFormat) || af.sampleFormat == caps.preferredSampleFormat)
      && (caps.supportsLayout(af.channelLayout) || af.channelLayout == caps.preferredLayout)
    // only a rejected field is replaced: an accepted one is kept as proposed
    ensures caps.supportsSampleFormat(Proposed(s, caps).sampleFormat) ==> af.sampleFormat == Proposed(s, caps).sampleFormat
    ensures caps.supportsLayout(Proposed(s, caps).channelLayout) ==> af.channelLayout == Proposed(s, caps).channelLayout
    ensures !caps.supportsFormat(Proposed(s, caps)) && !caps.supportsSampleFormat(Proposed(s, caps).sampleFormat) ==>
      af.sampleFormat == caps.preferredSampleFormat
    ensures !caps.supportsFormat(Proposed(s, caps)) && !caps.supportsLayout(Proposed(s, caps).channelLayout) ==>
      af.channelLayout == caps.preferredLayout
  {
    WithFallbacks(Proposed(s, caps), caps)
  }

  /** A stereo or mono interleaved stream whose own format the device supports is played as it is. */
  lemma SupportedStreamKept(s: StreamAudio, caps: DeviceCaps)
    requires s.channels <= 2 && !s.sampleFormat.planar
    requires caps.supportsFormat(AudioFormat(s.sampleRate, s.sampleFormat, s.channelLayout))
    ensures NegotiatedFormat(s, caps) == AudioFormat(s.sampleRate, s.sampleFormat, s.channelLayout)
  {
  }

  /** The negotiation only looks at the stream's layout when it has at most two channels. */
  lemma MultichannelIgnoresStreamLayout(s: StreamAudio, t: StreamAudio, caps: DeviceCaps)
    requires s.channels > 2 && t.channels > 2
    requires s.sampleRate == t.sampleRate && s.sampleFormat == t.sampleFormat
    ensures NegotiatedFormat(s, caps) == NegotiatedFormat(t, caps)
  {
  }

  /**
   * The negotiation as setupAudioThread performs it, reassigning the format
   * field by field.
   */
  method NegotiateFormat(s: StreamAudio, caps: DeviceCaps) returns (af: AudioFormat)
    ensures af == NegotiatedFormat(s, caps)
  {
    af := AudioFormat(0, SampleFormat(0, false), 0);
    af := af.(sampleRate := s.sampleRate);
    af := af.(sampleFormat := s.sampleFormat);
    if s.channels > 2 {
      af := af.(channelLayout := caps.preferredLayout);
    } else {
      af := af.(channelLayout := s.channelLayout);
    }
    if af.sampleFormat.planar {
      af := af.(sampleFormat := caps.preferredSampleFormat);
    }
    if !caps.supportsFormat(af) {
      if !caps.supportsSampleFormat(af.sampleFormat) {
        af := af.(sampleFormat := caps.preferredSampleFormat);
      }
      if !caps.supportsLayout(af.channelLayout) {
        af := af.(channelLayout := caps.preferredLayout);
      }
    }
  }

  /**
   * An audio output device. `openCalls` counts the calls to open(), so that a
   * caller can state when the device was reopened.
   */
  class AudioOutput {
    const id: int
    const caps: DeviceCaps
    var format: AudioFormat
    var isOpen: bool
    ghost var openCalls: nat

    constructor (id: int, spec: DeviceSpec)
      ensures this.id == id && caps == spec.caps && format == spec.format
      ensures !isOpen && openCalls == 0
    {
      this.id := id;
      caps := spec.caps;
      format := spec.format;
      isOpen := false;
      openCalls := 0;
    }

    method Close()
      modifies this`isOpen
      ensures !isOpen
    {
      isOpen := false;
    }

    method SetAudioFormat(af: AudioFormat)
      modifies this`format
      ensures format == af
    {
      format := af;
    }

    method Open() returns (ok: bool)
      modifies this`isOpen, this`openCalls
      ensures ok == caps.opens(format) && isOpen == ok
      ensures openCalls == old(openCalls) + 1
    {
      ok := caps.opens(format);
      isOpen := ok;
      openCalls := openCalls + 1;
    }
  }
}
