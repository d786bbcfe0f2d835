/**
 * The audio codec context the demuxer exposes, and correct_audio_channels,
 * which repairs its channel count / channel layout pair in place.
 */
module AudioChannels {
  import opened AudioFormats

  /**
   * The two FFmpeg functions the repair relies on, left uninterpreted:
   * the number of channels of a layout (av_get_channel_layout_nb_channels)
   * and the default layout for a channel count (av_get_default_channel_layout).
   */
  datatype LayoutLib = LayoutLib(channelsOf: ChannelLayout -> int, defaultLayout: int -> ChannelLayout)

  /** A channel count and a channel layout (0: unknown). */
  datatype Channels = Channels(count: int, layout: ChannelLayout)

  predicate Complete(c: Channels) {
    c.layout > 0 && c.count > 0
  }

  /** The pair after the repair: only a missing side is filled in, from the other side. */
  function CorrectedChannels(c: Channels, lib: LayoutLib): (r: Channels)
    ensures c.count > 0 ==> r.count == c.count
    ensures c.layout != 0 ==> r.layout == c.layout
    ensures c.count <= 0 && c.layout != 0 ==> r.count == lib.channelsOf(c.layout)
    ensures c.count > 0 && c.layout == 0 ==> r.layout == lib.defaultLayout(c.count)
    ensures c.count <= 0 && c.layout == 0 ==> r == c && !Complete(r)
    ensures Complete(c) ==> r == c
  {
    if c.count <= 0 then
      if c.layout != 0 then c.(count := lib.channelsOf(c.layout)) else c
    else
      if c.layout == 0 then c.(layout := lib.defaultLayout(c.count)) else c
  }

  /** Repairing twice is repairing once, whatever the FFmpeg functions answer. */
  lemma CorrectionIdempotent(c: Channels, lib: LayoutLib)
    ensures CorrectedChannels(CorrectedChannels(c, lib), lib) == CorrectedChannels(c, lib)
  {
  }

  /**
   * Assuming that every non-empty layout has at least one channel and that every
   * positive count has a non-empty default layout (av_get_default_channel_layout
   * returns 0 for counts without a standard layout, so this is an assumption),
   * the repair completes every pair that has at least one side.
   */
  lemma CorrectionCompletes(c: Channels, lib: LayoutLib)
    requires forall l: ChannelLayout :: l != 0 ==> lib.channelsOf(l) > 0
    requires forall n: int :: n > 0 ==> lib.defaultLayout(n) != 0
    ensures Complete(CorrectedChannels(c, lib)) <==> c.count > 0 || c.layout != 0
  {
  }

  /** The fields of AVCodecContext that the player reads and repairs. */
  class AudioCodecContext {
    var channels: int
    var channelLayout: ChannelLayout
    var sampleRate: int
    var sampleFormat: SampleFormat
    var blockAlign: int
    var frameSize: int

    constructor (channels: int, channelLayout: ChannelLayout, sampleRate: int, sampleFormat: SampleFormat, blockAlign: int, frameSize: int)
      ensures this.channels == channels && this.channelLayout == channelLayout
      ensures this.sampleRate == sampleRate && this.sampleFormat == sampleFormat
      ensures this.blockAlign == blockAlign && this.frameSize == frameSize
    {
      this.channels := channels;
      this.channelLayout := channelLayout;
      this.sampleRate := sampleRate;
      this.sampleFormat := sampleFormat;
      this.blockAlign := blockAlign;
      this.frameSize := frameSize;
    }

    function ChannelPair(): Channels
      reads this
    {
      Channels(channels, channelLayout)
    }

    function Audio(): StreamAudio
      reads this
    {
      StreamAudio(sampleRate, sampleFormat, channels, channelLayout)
    }
  }

  /** correct_audio_channels: repairs the pair in place and reports whether it is complete. */
  method CorrectAudioChannels(ctx: AudioCodecContext, lib: LayoutLib) returns (ok: bool)
    modifies ctx`channels, ctx`channelLayout
    ensures ctx.ChannelPair() == CorrectedChannels(old(ctx.ChannelPair()), lib)
    ensures ok <==> Complete(ctx.ChannelPair())
  {
    if ctx.channels <= 0 {
      if ctx.channelLayout != 0 {
        ctx.channels := lib.channelsOf(ctx.channelLayout);
      }
    } else {
      if ctx.channelLayout == 0 {
        ctx.channelLayout := lib.defaultLayout(ctx.channels);
      }
    }
    ok := ctx.channelLayout > 0 && ctx.channels > 0;
  }
}
