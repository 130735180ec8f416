/** The multichannel audio buffer a block is processed in place on: one array
    of samples per channel. */
module AudioBuffer {

  /** A bus's channel set (JUCE's `AudioChannelSet`): the speaker type of
      each channel, in order. An empty set is a disabled bus. */
  datatype ChannelSet = ChannelSet(types: seq<int>)

  /** JUCE's speaker types for the left, right and centre channels. */
  const Left: int := 1
  const Right: int := 2
  const Centre: int := 3

  /** `AudioChannelSet::mono()` and `AudioChannelSet::stereo()`. */
  const Mono: ChannelSet := ChannelSet([Centre])
  const Stereo: ChannelSet := ChannelSet([Left, Right])

  /** No two channel arrays are the same array. */
  ghost predicate Distinct(channels: seq<array<real>>)
  {
    forall i, j | 0 <= i < j < |channels| :: channels[i] != channels[j]
  }

  /** The block's channels are distinct and none is one of the effect's own arrays. */
  ghost predicate Separate(channels: seq<array<real>>, own: seq<array<real>>)
  {
    Distinct(channels) &&
    forall i, j | 0 <= i < |channels| && 0 <= j < |own| :: channels[i] != own[j]
  }

  /** A channel of n silent samples. */
  function Silence(n: nat): (s: seq<real>)
    ensures |s| == n && forall k | 0 <= k < n :: s[k] == 0.0
  {
    seq(n, _ => 0.0)
  }

  /** `buffer.clear(channel, 0, numSamples)` on one channel. */
  method Clear(a: array<real>)
    modifies a
    ensures a[..] == Silence(a.Length)
  {
    var k := 0;
    while k < a.Length
      invariant 0 <= k <= a.Length
      invariant a[..k] == Silence(k)
    {
      a[k] := 0.0;
      k := k + 1;
      assert a[..k] == a[..k - 1] + [0.0];
    }
    assert a[..] == a[..k];
  }

  /** The loop that silences the output channels from..to-1 that have no input. */
  method ClearChannels(channels: seq<array<real>>, from: nat, to: nat)
    requires Distinct(channels) && to <= |channels|
    modifies channels
    ensures forall c | from <= c < to :: channels[c][..] == Silence(channels[c].Length)
    ensures forall c | 0 <= c < |channels| && !(from <= c < to) :: channels[c][..] == old(channels[c][..])
  {
    var c := from;
    while c < to
      invariant from <= c && (c <= to || c == from)
      invariant forall e | from <= e < c :: channels[e][..] == Silence(channels[e].Length)
      invariant forall e | 0 <= e < |channels| && !(from <= e < c) :: channels[e][..] == old(channels[e][..])
    {
      Clear(channels[c]);
      c := c + 1;
    }
  }
}
