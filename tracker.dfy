/** Per-channel state of the tracker engine and the two operations that
    change it: `process_row`, which applies one pattern row to the four
    channels, and `process_tick`, which mixes the channels into a block of
    int16 samples while advancing their 16.16 fixed-point read positions. */
module Tracker {
  import opened CTypes
  import opened ModFormat

  const SampleRate := 22050
  const ProcessBufferSize := 1024
  /** 1.0 in 16.16 fixed point. */
  const FixedOne := 0x1_0000
  /** Largest magnitude one channel adds to a mixed sample: 128 * 255 / 64 * 32. */
  const MaxContribution := 16320

  const EffectPortamento := 0x3
  const EffectPatternBreak := 0xD
  const EffectSetVolume := 0xC
  const EffectSetSpeed := 0xF

  /** `ChannelState`. `samplePos` and `sampleIncrement` are 16.16 fixed point. */
  datatype Channel = Channel(
    period: u16,
    sampleNum: byte,
    volume: byte,
    samplePos: u32,
    sampleIncrement: u32,
    effect: byte,
    param: byte)

  /** A zero-initialised channel. */
  const SilentChannel := Channel(0, 0, 0, 0, 0, 0, 0)

  /** The mixer reads payload bytes without bounds checks, so every placed
      payload must lie inside the image. */
  ghost predicate PayloadsInImage(m: ModFile) {
    && |m.samples| == MaxSamples
    && forall i :: 0 <= i < MaxSamples && m.samples[i].data.Some? ==>
         m.samples[i].data.value + m.samples[i].length <= |m.image|
  }

  /** A channel the mixer looks at: a non-zero period and a sample selected. */
  predicate Sounding(ch: Channel) {
    ch.period > 0 && ch.sampleNum > 0
  }

  // ---------------------------------------------------------------------
  // process_tick

  /** The mixer reads a payload byte for this channel: it sounds, names one
      of the 31 samples, that sample has a payload, and the integer part of
      the position is inside it. */
  predicate ReadsPayload(m: ModFile, ch: Channel)
    requires PayloadsInImage(m)
  {
    && Sounding(ch) && ch.sampleNum - 1 < MaxSamples
    && m.samples[ch.sampleNum - 1].data.Some?
    && m.samples[ch.sampleNum - 1].length > 0
    && ch.samplePos / FixedOne < m.samples[ch.sampleNum - 1].length
  }

  /** The payload byte at the integer part of the channel's position, read
      as an int8_t. */
  function PayloadValue(m: ModFile, ch: Channel): (v: int)
    requires PayloadsInImage(m) && ReadsPayload(m, ch)
    ensures -0x80 <= v < 0x80
  {
    var s := m.samples[ch.sampleNum - 1];
    Signed8(m.image[s.data.value + ch.samplePos / FixedOne])
  }

  /** A payload value times the channel volume, divided by 64 in C's
      truncating division, then given the 32x gain: the multiple of 32 whose
      double is the product rounded toward zero to a multiple of 64. */
  function ScaledSample(product: int): (c: int)
    requires -0x80 * 0xFF <= product <= 0x7F * 0xFF
    ensures -MaxContribution <= c <= MaxContribution
    ensures c % 32 == 0
    ensures product >= 0 ==> 0 <= 2 * c <= product < 2 * c + 64
    ensures product < 0 ==> 2 * c - 64 < product <= 2 * c <= 0
  {
    CDiv64(product) * 32
  }

  /** Full volume plays the payload value with the 32x gain, volume 0
      silences it, and the sign of the contribution follows the value's. */
  lemma ScaledSampleVolumes(v: int, volume: byte)
    requires -0x80 <= v < 0x80
    ensures -0x80 * 0xFF <= v * volume <= 0x7F * 0xFF
    ensures volume == 64 ==> ScaledSample(v * volume) == 32 * v
    ensures volume == 0 ==> ScaledSample(v * volume) == 0
    ensures v >= 0 ==> ScaledSample(v * volume) >= 0
    ensures v <= 0 ==> ScaledSample(v * volume) <= 0
  {
    ProductRange(v, volume);
    var c := ScaledSample(v * volume);
    if volume == 64 {
      assert v * volume == 64 * v;
      var q := c / 32;
      assert c == 32 * q;
      assert q == v;
    }
  }

  /** The product of an int8_t value and a byte volume, with its sign. */
  lemma ProductRange(v: int, volume: byte)
    requires -0x80 <= v < 0x80
    ensures -0x80 * 0xFF <= v * volume <= 0x7F * 0xFF
    ensures v >= 0 ==> v * volume >= 0
    ensures v <= 0 ==> v * volume <= 0
  {
    if v >= 0 {
      assert (0x7F - v) * volume >= 0;
      assert 0x7F * (0xFF - volume) >= 0;
    } else {
      assert (v + 0x80) * volume >= 0;
      assert -v * volume >= 0;
    }
  }

  /** What one channel adds to one output sample, and the channel after
      it: the signed payload byte at the integer part of the position,
      scaled by volume/64 (C division, toward zero) and by 32; then the
      position advances by the increment (wrapping as a uint32_t), jumps
      back to the repeat point at the loop end of a looping sample, or
      stops the channel at the end of a one-shot sample. */
  function MixChannel(m: ModFile, ch: Channel): (r: (int, Channel))
    requires PayloadsInImage(m)
    ensures !Sounding(ch) ==> r == (0, ch)
    ensures -MaxContribution <= r.0 <= MaxContribution
    ensures r.1.(samplePos := ch.samplePos, period := ch.period) == ch
    ensures r.1.period == ch.period || r.1.period == 0
    ensures r.1 != ch ==> Sounding(ch) && ch.sampleNum <= MaxSamples
  {
    if ReadsPayload(m, ch) then
      var s := m.samples[ch.sampleNum - 1];
      var v := PayloadValue(m, ch);
      ProductRange(v, ch.volume);
      var contribution := ScaledSample(v * ch.volume);
      var advanced := WrapU32(ch.samplePos + ch.sampleIncrement);
      var next :=
        if s.repeatLength > 2 then
          if advanced / FixedOne >= s.repeatPoint + s.repeatLength
          then ch.(samplePos := s.repeatPoint * FixedOne)
          else ch.(samplePos := advanced)
        else if advanced / FixedOne >= s.length then ch.(samplePos := 0, period := 0)
        else ch.(samplePos := advanced);
      (contribution, next)
    else (0, ch)
  }

  /** The sum of what channels 0 .. c-1 contribute, each on its own. */
  function Contributions(m: ModFile, chans: seq<Channel>, c: nat): int
    requires PayloadsInImage(m) && c <= |chans|
  {
    if c == 0 then 0 else Contributions(m, chans, c - 1) + MixChannel(m, chans[c - 1]).0
  }

  /** What a channel adds to an output sample: nothing, and no change to
      the channel, unless it reads a payload byte; otherwise that byte's
      int8_t value times the volume, scaled as `ScaledSample` says. */
  lemma MixChannelContribution(m: ModFile, ch: Channel)
    requires PayloadsInImage(m)
    ensures !ReadsPayload(m, ch) ==> MixChannel(m, ch) == (0, ch)
    ensures ReadsPayload(m, ch) ==>
              && -0x80 * 0xFF <= PayloadValue(m, ch) * ch.volume <= 0x7F * 0xFF
              && MixChannel(m, ch).0 == ScaledSample(PayloadValue(m, ch) * ch.volume)
  {
    if ReadsPayload(m, ch) {
      ProductRange(PayloadValue(m, ch), ch.volume);
    }
  }

  /** Mixing channels 0 .. c-1 of one output sample, in channel order:
      the 32-bit sum of their contributions and the channels after. Each
      channel is advanced on its own; the later ones are untouched. */
  function MixFrame(m: ModFile, chans: seq<Channel>, c: nat): (r: (int, seq<Channel>))
    requires PayloadsInImage(m) && c <= |chans|
    ensures |r.1| == |chans|
    ensures -MaxContribution * c <= r.0 <= MaxContribution * c
    ensures forall k :: 0 <= k < c ==> r.1[k] == MixChannel(m, chans[k]).1
    ensures forall k :: c <= k < |chans| ==> r.1[k] == chans[k]
    ensures (forall k :: 0 <= k < c ==> !Sounding(chans[k])) ==> r.0 == 0
  {
    if c == 0 then (0, chans)
    else
      var prev := MixFrame(m, chans, c - 1);
      var one := MixChannel(m, prev.1[c - 1]);
      (prev.0 + one.0, prev.1[c - 1 := one.1])
  }

  /** The mix of one output sample is the sum of what each channel
      contributes on its own. */
  lemma {:induction false} MixFrameIsSum(m: ModFile, chans: seq<Channel>, c: nat)
    requires PayloadsInImage(m) && c <= |chans|
    ensures MixFrame(m, chans, c).0 == Contributions(m, chans, c)
  {
    if c > 0 {
      MixFrameIsSum(m, chans, c - 1);
    }
  }

  /** `process_tick` over `n` output samples: the clamped mixes, and the
      channels at the end of the tick. */
  function Tick(m: ModFile, chans: seq<Channel>, n: nat): (r: (seq<i16>, seq<Channel>))
    requires PayloadsInImage(m) && |chans| == NumChannels
    ensures |r.0| == n && |r.1| == NumChannels
  {
    if n == 0 then ([], chans)
    else
      var prev := Tick(m, chans, n - 1);
      var frame := MixFrame(m, prev.1, NumChannels);
      (prev.0 + [Clamp16(frame.0)], frame.1)
  }

  /** The 32-bit accumulator never overflows: four channels add at most
      4 * 16320 in magnitude. */
  lemma MixFitsInt32(m: ModFile, chans: seq<Channel>)
    requires PayloadsInImage(m) && |chans| == NumChannels
    ensures -0x8000_0000 <= MixFrame(m, chans, NumChannels).0 < 0x8000_0000
  {
  }

  /** A channel with period 0 or no sample is left as it is for the whole
      tick. */
  lemma {:induction false} SilentChannelUntouched(m: ModFile, chans: seq<Channel>, n: nat, c: nat)
    requires PayloadsInImage(m) && |chans| == NumChannels && c < NumChannels
    requires !Sounding(chans[c])
    ensures Tick(m, chans, n).1[c] == chans[c]
  {
    if n > 0 {
      SilentChannelUntouched(m, chans, n - 1, c);
    }
  }

  /** Channels that one output sample mixes to 0 and leaves unchanged stay
      so for a whole tick, which is then silence. */
  lemma {:induction false} TickAtRest(m: ModFile, chans: seq<Channel>, n: nat)
    requires PayloadsInImage(m) && |chans| == NumChannels
    requires MixFrame(m, chans, NumChannels) == (0, chans)
    ensures Tick(m, chans, n).1 == chans
    ensures forall i :: 0 <= i < n ==> Tick(m, chans, n).0[i] == 0
  {
    if n > 0 {
      TickAtRest(m, chans, n - 1);
      var prev, cur := Tick(m, chans, n - 1).0, Tick(m, chans, n).0;
      assert cur == prev + [Clamp16(0)];
      forall i | 0 <= i < n
        ensures cur[i] == 0
      {
        if i < n - 1 {
          assert cur[i] == prev[i];
        }
      }
    }
  }

  /** When no channel sounds, a tick is silence and changes nothing. */
  lemma QuietTickIsSilent(m: ModFile, chans: seq<Channel>, n: nat)
    requires PayloadsInImage(m) && |chans| == NumChannels
    requires forall c :: 0 <= c < NumChannels ==> !Sounding(chans[c])
    ensures Tick(m, chans, n).1 == chans
    ensures forall i :: 0 <= i < n ==> Tick(m, chans, n).0[i] == 0
  {
    QuietFrameIsSilent(m, chans);
    TickAtRest(m, chans, n);
  }

  /** When no channel sounds, one output sample mixes to 0 and leaves the
      channels as they are. */
  lemma QuietFrameIsSilent(m: ModFile, chans: seq<Channel>)
    requires PayloadsInImage(m) && |chans| == NumChannels
    requires forall c :: 0 <= c < NumChannels ==> !Sounding(chans[c])
    ensures MixFrame(m, chans, NumChannels) == (0, chans)
  {
    var frame := MixFrame(m, chans, NumChannels);
    assert forall k :: 0 <= k < NumChannels ==> frame.1[k] == chans[k];
    assert frame.1 == chans;
    assert frame.0 == 0;
  }

  /** A looping sample (repeat length above 2) whose advanced position
      reaches repeat point + repeat length jumps back to the repeat point;
      one that has not reached it keeps the advanced position. */
  lemma LoopingSampleWraps(m: ModFile, ch: Channel)
    requires PayloadsInImage(m) && Sounding(ch) && ch.sampleNum <= MaxSamples
    requires var s := m.samples[ch.sampleNum - 1];
      s.data.Some? && 0 < s.length && ch.samplePos / FixedOne < s.length && s.repeatLength > 2
    ensures var s := m.samples[ch.sampleNum - 1];
      var advanced := WrapU32(ch.samplePos + ch.sampleIncrement);
      && MixChannel(m, ch).1.period == ch.period
      && MixChannel(m, ch).1.samplePos ==
           (if advanced / FixedOne >= s.repeatPoint + s.repeatLength then s.repeatPoint * FixedOne else advanced)
      && MixChannel(m, ch).1.samplePos / FixedOne < s.repeatPoint + s.repeatLength
  {
  }

  /** A one-shot sample whose advanced position reaches its length stops:
      period and position both become 0. */
  lemma OneShotSampleStops(m: ModFile, ch: Channel)
    requires PayloadsInImage(m) && Sounding(ch) && ch.sampleNum <= MaxSamples
    requires var s := m.samples[ch.sampleNum - 1];
      s.data.Some? && 0 < s.length && ch.samplePos / FixedOne < s.length && s.repeatLength <= 2
    ensures var s := m.samples[ch.sampleNum - 1];
      var next := MixChannel(m, ch).1;
      && (next.period == 0 <==> WrapU32(ch.samplePos + ch.sampleIncrement) / FixedOne >= s.length)
      && (next.period == 0 ==> next.samplePos == 0)
      && (next.period != 0 ==> next.samplePos == WrapU32(ch.samplePos + ch.sampleIncrement))
      && (next.period != 0 ==> next.samplePos / FixedOne < s.length)
  {
  }

  /** The body of the channel loop of `process_tick`: what the channel adds
      to the current output sample, and the channel afterwards. */
  method MixChannelStep(m: ModFile, ch: Channel) returns (contribution: int, next: Channel)
    requires PayloadsInImage(m)
    ensures (contribution, next) == MixChannel(m, ch)
  {
    contribution, next := 0, ch;
    if ch.period > 0 && ch.sampleNum > 0 {
      var sampleIdx := ch.sampleNum - 1;
      if sampleIdx < MaxSamples && m.samples[sampleIdx].data.Some? && m.samples[sampleIdx].length > 0 {
        var s := m.samples[sampleIdx];
        var pos := ch.samplePos / FixedOne;
        if pos < s.length {
          var sampleVal := Signed8(m.image[s.data.value + pos]);
          contribution := CDiv64(sampleVal * ch.volume) * 32;
          next := next.(samplePos := WrapU32(next.samplePos + next.sampleIncrement));
          if s.repeatLength > 2 {
            var loopEnd := s.repeatPoint + s.repeatLength;
            if next.samplePos / FixedOne >= loopEnd {
              next := next.(samplePos := s.repeatPoint * FixedOne);
            }
          } else if next.samplePos / FixedOne >= s.length {
            next := next.(samplePos := 0, period := 0);
          }
        }
      }
    }
  }

  /** The channel loop of `process_tick` for one output sample: the 32-bit
      mix of the four channels, each of which is advanced as `MixChannel`
      describes. */
  method MixSample(m: ModFile, channels: array<Channel>) returns (mixed: int)
    requires PayloadsInImage(m) && channels.Length == NumChannels
    modifies channels
    ensures mixed == MixFrame(m, old(channels[..]), NumChannels).0
    ensures channels[..] == MixFrame(m, old(channels[..]), NumChannels).1
  {
    mixed := 0;
    for c := 0 to NumChannels
      invariant mixed == MixFrame(m, old(channels[..]), c).0
      invariant channels[..] == MixFrame(m, old(channels[..]), c).1
    {
      var contribution, next := MixChannelStep(m, channels[c]);
      mixed := mixed + contribution;
      channels[c] := next;
    }
  }

  /** `process_tick`: fills the first `n` entries of `buffer` with the
      clamped mix of the four channels and advances the channels, as
      `Tick` describes; the rest of the buffer is left alone. */
  method ProcessTick(m: ModFile, channels: array<Channel>, buffer: array<i16>, n: nat)
    requires PayloadsInImage(m)
    requires channels.Length == NumChannels && n <= buffer.Length
    modifies channels, buffer
    ensures buffer[..n] == Tick(m, old(channels[..]), n).0
    ensures channels[..] == Tick(m, old(channels[..]), n).1
    ensures buffer[n..] == old(buffer[n..])
  {
    forall k | 0 <= k < n {
      buffer[k] := 0;
    }
    for i := 0 to n
      invariant buffer[..i] == Tick(m, old(channels[..]), i).0
      invariant channels[..] == Tick(m, old(channels[..]), i).1
      invariant buffer[n..] == old(buffer[n..])
    {
      var mixed := MixSample(m, channels);
      buffer[i] := Clamp16(mixed);
      assert buffer[..i + 1] == buffer[..i] + [buffer[i]];
    }
  }

  // ---------------------------------------------------------------------
  // process_row

  /** The pattern row at song position `position` can be read: the position
      table entry names a loaded pattern and each of the row's four sample
      numbers is at most 31 (the source indexes the sample table with it
      unchecked). */
  ghost predicate RowReadable(m: ModFile, position: nat, row: nat) {
    && |m.positions| == PositionTableSize
    && position < PositionTableSize
    && row < RowsPerPattern
    && |m.samples| == MaxSamples
    && |m.patterns| == m.numPatterns * CellsPerPattern
    && m.positions[position] < m.numPatterns
    && forall c :: 0 <= c < NumChannels ==> m.patterns[CellIndex(m.positions[position], row, c)].sample <= MaxSamples
  }

  lemma CellInPattern(m: ModFile, position: nat, row: nat, c: nat)
    requires RowReadable(m, position, row) && c < NumChannels
    ensures CellIndex(m.positions[position], row, c) < |m.patterns|
  {
    var p := m.positions[position];
    assert CellIndex(p, row, c) < (p + 1) * CellsPerPattern;
    assert (p + 1) * CellsPerPattern <= m.numPatterns * CellsPerPattern;
  }

  /** The cell of channel `c` in the row at song position `position`. */
  function CellOf(m: ModFile, position: nat, row: nat, c: nat): (n: Note)
    requires RowReadable(m, position, row) && c < NumChannels
    ensures n.sample <= MaxSamples
  {
    CellInPattern(m, position, row, c);
    m.patterns[CellIndex(m.positions[position], row, c)]
  }

  /** One channel after its cell of the row is applied. */
  function ApplyNote(m: ModFile, ch: Channel, note: Note, increment: u16 -> u32): (r: Channel)
    requires |m.samples| == MaxSamples && note.sample <= MaxSamples
    // a sample number selects the sample (0 keeps the current one)
    ensures r.sampleNum == if note.sample > 0 then note.sample else ch.sampleNum
    // set-volume with a parameter up to 64 wins; otherwise a new sample brings its default volume
    ensures r.volume ==
      if note.effect == EffectSetVolume && note.param <= 64 then note.param
      else if note.sample > 0 then m.samples[note.sample - 1].volume
      else ch.volume
    // a period restarts the note unless the effect is portamento
    ensures note.period != 0 && note.effect != EffectPortamento ==>
      r.period == note.period && r.samplePos == 0 && r.sampleIncrement == increment(note.period)
    ensures note.period == 0 || note.effect == EffectPortamento ==>
      r.period == ch.period && r.samplePos == ch.samplePos && r.sampleIncrement == ch.sampleIncrement
    // the effect and its parameter are always recorded
    ensures r.effect == note.effect && r.param == note.param
  {
    var withSample :=
      if note.sample > 0 then ch.(sampleNum := note.sample, volume := m.samples[note.sample - 1].volume) else ch;
    var withNote :=
      if note.period != 0 && note.effect != EffectPortamento
      then withSample.(period := note.period, samplePos := 0, sampleIncrement := increment(note.period))
      else withSample;
    var withEffect := withNote.(effect := note.effect, param := note.param);
    if note.effect == EffectSetVolume && note.param <= 64 then withEffect.(volume := note.param) else withEffect
  }

  /** All four channels after the row at (`position`, `row`) is applied. */
  function RowChannels(m: ModFile, chans: seq<Channel>, position: nat, row: nat, increment: u16 -> u32): (r: seq<Channel>)
    requires RowReadable(m, position, row) && |chans| == NumChannels
    ensures |r| == NumChannels
  {
    seq(NumChannels, c requires 0 <= c < NumChannels => ApplyNote(m, chans[c], CellOf(m, position, row, c), increment))
  }

  /** `process_row`. The increment the source derives from the period with
      floating-point arithmetic is the given function `increment`. */
  method ProcessRow(m: ModFile, channels: array<Channel>, position: nat, row: nat, increment: u16 -> u32)
    requires RowReadable(m, position, row) && channels.Length == NumChannels
    modifies channels
    ensures channels[..] == RowChannels(m, old(channels[..]), position, row, increment)
  {
    var pattern := m.positions[position];
    for c := 0 to NumChannels
      invariant forall k :: 0 <= k < c ==>
        channels[k] == ApplyNote(m, old(channels[k]), CellOf(m, position, row, k), increment)
      invariant forall k :: c <= k < NumChannels ==> channels[k] == old(channels[k])
    {
      CellInPattern(m, position, row, c);
      var note := m.patterns[CellIndex(pattern, row, c)];
      var ch := channels[c];
      if note.sample > 0 {
        ch := ch.(sampleNum := note.sample, volume := m.samples[note.sample - 1].volume);
      }
      if note.period != 0 {
        if note.effect != EffectPortamento {
          ch := ch.(period := note.period, samplePos := 0, sampleIncrement := increment(note.period));
        }
      }
      ch := ch.(effect := note.effect, param := note.param);
      if note.effect == EffectSetVolume {
        if note.param <= 64 {
          ch := ch.(volume := note.param);
        }
      }
      channels[c] := ch;
    }
  }

  // ---------------------------------------------------------------------
  // Tempo

  /** `calculate_tick_samples`: 2500/tempo milliseconds per tick at 22050 Hz,
      in integer arithmetic. For every tempo the effect can set (32 to 255)
      a tick is between 216 and 1722 samples. */
  function CalculateTickSamples(tempo: int): (n: int)
    requires tempo > 0
    ensures 0x20 <= tempo < 0x100 ==> 216 <= n <= 1722
  {
    TickSamplesRange(tempo);
    (2500 * SampleRate) / (tempo * 1000)
  }

  lemma TickSamplesRange(tempo: int)
    ensures 0x20 <= tempo < 0x100 ==> 216 <= (2500 * SampleRate) / (tempo * 1000) <= 1722
  {
    if 0x20 <= tempo < 0x100 {
      var d := tempo * 1000;
      var n := (2500 * SampleRate) / d;
      assert 32000 <= d <= 255000;
      assert n * d <= 55125000 < n * d + d;
    }
  }

  lemma TickSamplesAtTempo()
    ensures CalculateTickSamples(125) == 441
    ensures CalculateTickSamples(250) == 220
  {
  }
}
