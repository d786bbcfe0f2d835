/**
 * First-match selection over the player's ordered candidate lists (vc_ids for
 * video decoders, ao_ids for audio outputs). What a factory and a candidate do
 * with the current stream is an abstract outcome, one record per candidate id.
 */
module Candidates {
  import opened Options
  import opened AudioFormats

  type DecoderId = int
  type OutputId = int

  /** The index of the first element of `s` that satisfies `p`. */
  function FirstIndex<T>(s: seq<T>, p: T -> bool): (r: Option<nat>)
    ensures r.Some? ==> r.value < |s| && p(s[r.value])
    ensures r.Some? ==> forall j :: 0 <= j < r.value ==> !p(s[j])
    ensures r.None? ==> forall j :: 0 <= j < |s| ==> !p(s[j])
  {
    if |s| == 0 then None
    else if p(s[0]) then Some(0)
    else match FirstIndex(s[1..], p)
      case None => None
      case Some(k) => Some(k + 1)
  }

  /** `FirstIndex` is the only index with its two defining properties. */
  lemma FirstIndexUnique<T>(s: seq<T>, p: T -> bool, k: nat)
    requires k < |s| && p(s[k])
    requires forall j :: 0 <= j < k ==> !p(s[j])
    ensures FirstIndex(s, p) == Some(k)
  {
  }

  /**
   * What trying one video decoder id against the current stream gives:
   * whether VideoDecoderFactory::create returned an instance, and whether its
   * prepare() and open() succeed. `name` is what the instance reports as its name.
   */
  datatype DecoderTrial = DecoderTrial(id: DecoderId, name: string, created: bool, prepares: bool, opens: bool)

  /** A candidate is kept when it is created and both prepare() and open() succeed. */
  predicate Works(t: DecoderTrial) {
    t.created && t.prepares && t.opens
  }

  /** The ids of the candidates that were created and then deleted because they did not work, in order. */
  function Discarded(ts: seq<DecoderTrial>): (ids: seq<DecoderId>)
    ensures |ids| <= |ts|
    ensures forall i :: 0 <= i < |ids| ==> exists j :: 0 <= j < |ts| && ts[j].id == ids[i] && ts[j].created && !Works(ts[j])
    ensures forall j :: 0 <= j < |ts| && ts[j].created && !Works(ts[j]) ==> ts[j].id in ids
  {
    if |ts| == 0 then []
    else
      var last := ts[|ts| - 1];
      Discarded(ts[..|ts| - 1]) + (if last.created && !Works(last) then [last.id] else [])
  }

  /**
   * The decoder loop of setupVideoThread: tries the candidates in order and stops
   * at the first that works. `tried` counts the candidates the factory was asked
   * for (no later one is ever created); `destroyed` lists the created instances
   * that were deleted.
   */
  method SelectVideoDecoder(trials: seq<DecoderTrial>) returns (found: Option<nat>, tried: nat, destroyed: seq<DecoderId>)
    ensures found == FirstIndex(trials, Works)
    ensures found.Some? ==> tried == found.value + 1
    ensures found.None? ==> tried == |trials|
    ensures tried <= |trials| && destroyed == Discarded(trials[..tried])
  {
    found, tried, destroyed := None, 0, [];
    while tried < |trials|
      invariant tried <= |trials|
      invariant forall j :: 0 <= j < tried ==> !Works(trials[j])
      invariant destroyed == Discarded(trials[..tried])
    {
      var t := trials[tried];
      assert trials[..tried + 1][..tried] == trials[..tried];
      tried := tried + 1;
      if !t.created {
        continue;
      }
      if t.prepares && t.opens {
        found := Some(tried - 1);
        FirstIndexUnique(trials, Works, tried - 1);
        return;
      }
      destroyed := destroyed + [t.id];
    }
    assert trials[..tried] == trials;
  }

  /** What AudioOutputFactory::create gives for one id: a device, or nothing. */
  datatype OutputTrial = OutputTrial(id: OutputId, device: Option<DeviceSpec>)

  predicate Created(t: OutputTrial) {
    t.device.Some?
  }

  /** The audio output loop of setupAudioThread: the first id whose factory call returns a device. */
  method SelectAudioOutput(trials: seq<OutputTrial>) returns (found: Option<nat>)
    ensures found == FirstIndex(trials, Created)
  {
    found := None;
    var i := 0;
    while i < |trials|
      invariant i <= |trials|
      invariant forall j :: 0 <= j < i ==> !Created(trials[j])
    {
      if trials[i].device.Some? {
        found := Some(i);
        FirstIndexUnique(trials, Created, i);
        return;
      }
      i := i + 1;
    }
  }

  /** The decoder trials are those of the configured ids `vcIds`, in their order. */
  predicate DecoderTrialsOf(vcIds: seq<DecoderId>, trials: seq<DecoderTrial>) {
    |trials| == |vcIds| && forall i :: 0 <= i < |vcIds| ==> trials[i].id == vcIds[i]
  }

  /** The output trials are those of the configured ids `aoIds`, in their order. */
  predicate OutputTrialsOf(aoIds: seq<OutputId>, trials: seq<OutputTrial>) {
    |trials| == |aoIds| && forall i :: 0 <= i < |aoIds| ==> trials[i].id == aoIds[i]
  }
}
