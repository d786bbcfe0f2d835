/**
 * QtAV's Packet: a compressed frame with its timestamps in seconds, built
 * from an FFmpeg AVPacket (whose timestamps count units of the stream's time
 * base) and able to give back an AVPacket view whose timestamps are in
 * milliseconds. AV_NOPTS_VALUE is the absent case of Timestamp.
 */
module Packets {
  import opened Options
  import opened Reals

  type byte = bv8

  datatype Timestamp = NoPts | Ts(value: int)

  /** AVPacket.flags: a non-negative int whose bits are the AV_PKT_FLAG_* values. */
  type Flags = nat

  /** AV_PKT_FLAG_KEY and AV_PKT_FLAG_CORRUPT, single bits. */
  const KeyFlag: nat := 1
  const CorruptFlag: nat := 2

  /** The fields of an FFmpeg AVPacket the conversions read or write; `data` holds `size` bytes. */
  datatype AVPacket = AVPacket(
    pts: Timestamp, dts: Timestamp, duration: int, convergenceDuration: int,
    flags: Flags, pos: int, data: seq<byte>)

  /** A packet as av_init_packet leaves it. */
  const InitPacket := AVPacket(NoPts, NoPts, 0, 0, 0, -1, [])

  /** The public fields of a Packet. */
  datatype PacketFields = PacketFields(
    hasKeyFrame: bool, isCorrupt: bool, data: seq<byte>,
    pts: real, duration: real, dts: real, position: int)

  /** The fields of a default-constructed Packet. */
  const DefaultFields := PacketFields(false, false, [], 0.0, 0.0, 0.0, 0)

  /** The shared private part: whether the AVPacket view has been built, and the view. */
  datatype PacketPrivate = PacketPrivate(initialized: bool, avpkt: AVPacket)

  /** `flags & flag != 0` for a single-bit flag. */
  predicate HasFlag(flags: Flags, flag: nat)
    requires flag == KeyFlag || flag == CorruptFlag
  {
    (flags / flag) % 2 == 1
  }

  /** `flags | flag` for a single-bit flag. */
  function SetFlag(flags: Flags, flag: nat): (r: Flags)
    requires flag == KeyFlag || flag == CorruptFlag
    ensures HasFlag(r, flag)
    ensures HasFlag(r, KeyFlag) <==> HasFlag(flags, KeyFlag) || flag == KeyFlag
    ensures HasFlag(r, CorruptFlag) <==> HasFlag(flags, CorruptFlag) || flag == CorruptFlag
  {
    if HasFlag(flags, flag) then flags else flags + flag
  }

  /** A C++ conversion of a double to a 64-bit integer: truncation toward zero. */
  function Trunc(x: real): (n: int)
    ensures x >= 0.0 ==> n >= 0 && n as real <= x < n as real + 1.0
    ensures x < 0.0 ==> n <= 0 && n as real - 1.0 < x <= n as real
  {
    if x >= 0.0 then x.Floor else -((-x).Floor)
  }

  /** Seconds to whole milliseconds, as the AVPacket view stores them. */
  function Milliseconds(seconds: real): int {
    Trunc(seconds * 1000.0)
  }

  /** A number of seconds that is a whole number of milliseconds. */
  predicate WholeMilliseconds(seconds: real) {
    (seconds * 1000.0).Floor as real == seconds * 1000.0
  }

  /**
   * The fields fromAVPacket gives a packet read with time base `tb` (seconds per unit):
   * pts falls back to dts and then to 0, dts falls back to pts, both are clamped
   * at 0, and the duration is the convergence duration for a key frame that has one.
   */
  function Decoded(a: AVPacket, tb: real): (f: PacketFields)
    ensures f.pts >= 0.0 && f.dts >= 0.0
    ensures a.pts.Ts? ==> f.pts == RMax(0.0, a.pts.value as real * tb)
    ensures a.pts.NoPts? && a.dts.Ts? ==> f.pts == RMax(0.0, a.dts.value as real * tb)
    ensures a.dts.Ts? ==> f.dts == RMax(0.0, a.dts.value as real * tb)
    ensures a.pts.NoPts? ==> f.pts == f.dts
    ensures a.dts.NoPts? ==> f.dts == f.pts
    ensures a.pts.NoPts? && a.dts.NoPts? ==> f.pts == 0.0
    ensures f.hasKeyFrame <==> HasFlag(a.flags, KeyFlag)
    ensures f.isCorrupt <==> HasFlag(a.flags, CorruptFlag)
    ensures f.position == a.pos && f.data == a.data
    ensures tb >= 0.0 ==> f.duration >= 0.0
    ensures (f.duration != 0.0) ==> (a.convergenceDuration > 0 && f.hasKeyFrame) || a.duration > 0
    ensures a.convergenceDuration > 0 && f.hasKeyFrame ==> f.duration == a.convergenceDuration as real * tb
    ensures !(a.convergenceDuration > 0 && f.hasKeyFrame) && a.duration > 0 ==> f.duration == a.duration as real * tb
    ensures !(a.convergenceDuration > 0 && f.hasKeyFrame) && a.duration <= 0 ==> f.duration == 0.0
  {
    var key := HasFlag(a.flags, KeyFlag);
    var pts := if a.pts.Ts? then a.pts.value as real * tb
               else if a.dts.Ts? then a.dts.value as real * tb
               else 0.0;
    var dts := if a.dts.Ts? then a.dts.value as real * tb else pts;
    var duration := if a.convergenceDuration > 0 && key then a.convergenceDuration as real * tb
                    else if a.duration > 0 then a.duration as real * tb
                    else 0.0;
    PacketFields(key, HasFlag(a.flags, CorruptFlag), a.data, RMax(0.0, pts), duration, RMax(0.0, dts), a.pos)
  }

  /**
   * The AVPacket view fromAVPacket stores: the source packet's properties and
   * data, with pts, dts and duration replaced by the packet's values in ms.
   */
  function Inner(a: AVPacket, f: PacketFields): AVPacket {
    a.(pts := Ts(Milliseconds(f.pts)), dts := Ts(Milliseconds(f.dts)), duration := Milliseconds(f.duration))
  }

  /** The flags asAVPacket sets on top of `base`. */
  function WithFlags(base: Flags, f: PacketFields): (flags: Flags)
    ensures HasFlag(flags, KeyFlag) <==> HasFlag(base, KeyFlag) || f.hasKeyFrame
    ensures HasFlag(flags, CorruptFlag) <==> HasFlag(base, CorruptFlag) || f.isCorrupt
    ensures base == 0 ==> flags <= 3
  {
    var flags := if f.isCorrupt then SetFlag(base, CorruptFlag) else base;
    if f.hasKeyFrame then SetFlag(flags, KeyFlag) else flags
  }

  /** The AVPacket view asAVPacket builds on `base` for a packet with fields `f`. */
  function Encoded(base: AVPacket, f: PacketFields): AVPacket {
    base.(pts := Ts(Milliseconds(f.pts)), dts := Ts(Milliseconds(f.dts)), duration := Milliseconds(f.duration),
          pos := f.position, flags := WithFlags(base.flags, f),
          data := if f.data != [] then f.data else base.data)
  }

  /** A packet is exactly representable in ms when its times are non-negative whole milliseconds. */
  predicate InMilliseconds(f: PacketFields) {
    && f.pts >= 0.0 && f.dts >= 0.0 && f.duration >= 0.0
    && WholeMilliseconds(f.pts) && WholeMilliseconds(f.dts) && WholeMilliseconds(f.duration)
  }

  lemma MillisecondsExact(seconds: real)
    requires seconds >= 0.0 && WholeMilliseconds(seconds)
    ensures Milliseconds(seconds) as real * 0.001 == seconds
    ensures Milliseconds(seconds) > 0 <==> seconds > 0.0
  {
  }

  /**
   * Reading back the AVPacket view of a fresh packet with a time base of 1/1000
   * gives the packet back, for times in whole non-negative milliseconds.
   */
  lemma {:induction false} DecodeEncoded(f: PacketFields)
    requires InMilliseconds(f)
    ensures Decoded(Encoded(InitPacket, f), 0.001) == f
  {
    MillisecondsExact(f.pts);
    MillisecondsExact(f.dts);
    MillisecondsExact(f.duration);
    var flags := WithFlags(0, f);
    assert HasFlag(flags, KeyFlag) == f.hasKeyFrame;
    assert HasFlag(flags, CorruptFlag) == f.isCorrupt;
  }

  /** An AVPacket in ms with both timestamps, no convergence duration and no flags but KEY and CORRUPT. */
  predicate NormalisedMs(a: AVPacket) {
    && a.pts.Ts? && a.dts.Ts? && a.pts.value >= 0 && a.dts.value >= 0
    && a.duration >= 0 && a.convergenceDuration == 0 && a.flags <= 3
  }

  /** Reading a normalised AVPacket with a time base of 1/1000 and taking its view again gives it back. */
  lemma {:induction false} EncodeDecoded(a: AVPacket)
    requires NormalisedMs(a)
    ensures Encoded(InitPacket, Decoded(a, 0.001)) == a
  {
    var f := Decoded(a, 0.001);
    assert Milliseconds(a.pts.value as real * 0.001) == a.pts.value;
    assert Milliseconds(a.dts.value as real * 0.001) == a.dts.value;
    assert Milliseconds(f.duration) == a.duration;
    assert WithFlags(0, f) == a.flags;
  }

  class Packet {
    var hasKeyFrame: bool
    var isCorrupt: bool
    var data: seq<byte>
    var pts: real
    var duration: real
    var dts: real
    var position: int
    /** QSharedDataPointer<PacketPrivate>: copy-on-write, so each packet sees its own value. */
    var d: Option<PacketPrivate>

    function Value(): PacketFields
      reads this
    {
      PacketFields(hasKeyFrame, isCorrupt, data, pts, duration, dts, position)
    }

    /** The default packet: no flags, zero times and position, no data, no AVPacket view. */
    constructor ()
      ensures Value() == DefaultFields && d == None
    {
      hasKeyFrame, isCorrupt := false, false;
      pts, duration, dts := 0.0, 0.0, 0.0;
      position := 0;
      data := [];
      d := None;
    }

    /** The copy constructor. */
    constructor Copy(other: Packet)
      ensures Value() == other.Value() && d == other.d
    {
      hasKeyFrame := other.hasKeyFrame;
      isCorrupt := other.isCorrupt;
      data := other.data;
      pts := other.pts;
      duration := other.duration;
      dts := other.dts;
      position := other.position;
      d := other.d;
    }

    /** operator=; assigning a packet to itself changes nothing. */
    method Assign(other: Packet)
      modifies this
      ensures Value() == old(other.Value()) && d == old(other.d)
      ensures other == this ==> unchanged(this)
    {
      if this == other {
        return;
      }
      d := other.d;
      hasKeyFrame := other.hasKeyFrame;
      isCorrupt := other.isCorrupt;
      pts := other.pts;
      duration := other.duration;
      dts := other.dts;
      position := other.position;
      data := other.data;
    }

    /**
     * asAVPacket: an initialized view only gets the current data; otherwise the
     * view (a fresh one when there is none) is filled from the packet's fields
     * and marked initialized.
     */
    method AsAVPacket() returns (p: AVPacket)
      modifies this`d
      ensures Value() == old(Value())
      ensures d == Some(PacketPrivate(true, p))
      ensures old(d).Some? && old(d).value.initialized ==> p == old(d).value.avpkt.(data := data)
      ensures old(d).None? ==> p == Encoded(InitPacket, Value())
      ensures old(d).Some? && !old(d).value.initialized ==> p == Encoded(old(d).value.avpkt, Value())
    {
      if d.Some? {
        if d.value.initialized {
          p := d.value.avpkt.(data := data);
          d := Some(PacketPrivate(true, p));
          return;
        }
      } else {
        d := Some(PacketPrivate(false, InitPacket));
      }
      p := d.value.avpkt;
      ghost var base := p;
      p := p.(pts := Ts(Milliseconds(pts)));
      p := p.(dts := Ts(Milliseconds(dts)));
      p := p.(duration := Milliseconds(duration));
      p := p.(pos := position);
      if isCorrupt {
        p := p.(flags := SetFlag(p.flags, CorruptFlag));
      }
      if hasKeyFrame {
        p := p.(flags := SetFlag(p.flags, KeyFlag));
      }
      assert p.flags == WithFlags(base.flags, Value());
      if data != [] {
        p := p.(data := data);
      }
      assert p == Encoded(base, Value());
      d := Some(PacketPrivate(true, p));
    }
  }

  /**
   * fromAVPacket into an existing packet: fails, changing nothing, on a null
   * packet or a null AVPacket; otherwise sets the fields and the ms view.
   */
  method FillFromAVPacket(pkt: Packet?, avpkt: Option<AVPacket>, timeBase: real) returns (ok: bool)
    modifies pkt
    ensures ok <==> pkt != null && avpkt.Some?
    ensures !ok && pkt != null ==> unchanged(pkt)
    ensures ok ==> pkt.Value() == Decoded(avpkt.value, timeBase)
    ensures ok ==> pkt.d == Some(PacketPrivate(true, Inner(avpkt.value, pkt.Value())))
  {
    if pkt == null || avpkt.None? {
      return false;
    }
    var a := avpkt.value;
    ghost var f := Decoded(a, timeBase);
    pkt.position := a.pos;
    pkt.hasKeyFrame := HasFlag(a.flags, KeyFlag);
    pkt.isCorrupt := HasFlag(a.flags, CorruptFlag);
    if a.pts.Ts? {
      pkt.pts := a.pts.value as real * timeBase;
    } else if a.dts.Ts? {
      pkt.pts := a.dts.value as real * timeBase;
    } else {
      pkt.pts := 0.0;
    }
    if a.dts.Ts? {
      pkt.dts := a.dts.value as real * timeBase;
    } else {
      pkt.dts := pkt.pts;
    }
    pkt.pts := RMax(0.0, pkt.pts);
    pkt.dts := RMax(0.0, pkt.dts);
    assert pkt.pts == f.pts && pkt.dts == f.dts;
    if a.convergenceDuration > 0 && pkt.hasKeyFrame {
      pkt.duration := a.convergenceDuration as real * timeBase;
    } else if a.duration > 0 {
      pkt.duration := a.duration as real * timeBase;
    } else {
      pkt.duration := 0.0;
    }
    assert pkt.duration == f.duration;
    pkt.data := [];
    var p := InitPacket;
    if a.data != [] {
      pkt.data := a.data;
    }
    // av_packet_copy_props: everything but the data
    p := a.(data := p.data);
    if pkt.data != [] {
      p := p.(data := pkt.data);
    }
    p := p.(pts := Ts(Milliseconds(pkt.pts)), dts := Ts(Milliseconds(pkt.dts)), duration := Milliseconds(pkt.duration));
    pkt.d := Some(PacketPrivate(true, p));
    ok := true;
  }

  /** fromAVPacket returning a packet: a default packet when the AVPacket is null. */
  method FromAVPacket(avpkt: Option<AVPacket>, timeBase: real) returns (pkt: Packet)
    ensures fresh(pkt)
    ensures avpkt.None? ==> pkt.Value() == DefaultFields && pkt.d == None
    ensures avpkt.Some? ==> pkt.Value() == Decoded(avpkt.value, timeBase)
    ensures avpkt.Some? ==> pkt.d == Some(PacketPrivate(true, Inner(avpkt.value, pkt.Value())))
  {
    pkt := new Packet();
    var ok := FillFromAVPacket(pkt, avpkt, timeBase);
    if !ok {
      pkt := new Packet();
    }
  }
}
