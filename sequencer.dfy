/** One iteration of the `modplayer_task` playback loop: on the first tick
    of a row the row is applied and the pattern-break and set-speed effects
    are scanned; then one tick of audio is mixed and handed to the ring
    buffer, and the tick, row and song position counters move on. */
module Sequencer {
  import opened CTypes
  import opened ModFormat
  import opened Tracker
  import RingBuffer

  const DefaultTicksPerRow := 5
  const DefaultTempo := 125

  /** The loop variables the effect scan may change. */
  datatype Timing = Timing(row: int, ticksPerRow: int, tempo: int, samplesPerTick: int)

  /** The row is inside the pattern, a row lasts 1 to 31 ticks, the tempo is
      one the set-speed effect can select, and the tick length follows it. */
  predicate TimingValid(t: Timing) {
    && 0 <= t.row < RowsPerPattern
    && 1 <= t.ticksPerRow <= 0x1F
    && 0x20 <= t.tempo < 0x100
    && t.samplesPerTick == CalculateTickSamples(t.tempo)
  }

  /** The effect scan of the loop from channel `c` on: the first channel
      with a pattern break forces the last row and ends the scan; set-speed
      with a parameter from 1 to 0x1F sets the ticks per row, with 0 does
      nothing, and with 0x20 or more sets the tempo and the tick length. */
  function ScanEffects(chans: seq<Channel>, c: nat, t: Timing): (r: Timing)
    requires c <= |chans|
    decreases |chans| - c
    ensures TimingValid(t) ==> TimingValid(r)
    ensures (forall k :: c <= k < |chans| ==> chans[k].effect != EffectPatternBreak) ==> r.row == t.row
    ensures (exists k :: c <= k < |chans| && chans[k].effect == EffectPatternBreak) ==> r.row == RowsPerPattern - 1
    ensures r.tempo == t.tempo || 0x20 <= r.tempo < 0x100
    ensures r.ticksPerRow == t.ticksPerRow || 1 <= r.ticksPerRow <= 0x1F
    ensures (forall k :: c <= k < |chans| ==>
               chans[k].effect != EffectPatternBreak && (chans[k].effect != EffectSetSpeed || chans[k].param == 0)) ==>
            r == t
  {
    if c == |chans| then t
    else
      var ch := chans[c];
      if ch.effect == EffectPatternBreak then t.(row := RowsPerPattern - 1)
      else if ch.effect == EffectSetSpeed && ch.param <= 0x1F then
        ScanEffects(chans, c + 1, if ch.param > 0 then t.(ticksPerRow := ch.param) else t)
      else if ch.effect == EffectSetSpeed && ch.param >= 0x20 then
        ScanEffects(chans, c + 1, t.(tempo := ch.param, samplesPerTick := CalculateTickSamples(ch.param)))
      else ScanEffects(chans, c + 1, t)
  }

  /** Channels after the first pattern break play no part in the scan. */
  lemma {:induction false} PatternBreakStopsScan(chans: seq<Channel>, d: nat, c: nat, t: Timing)
    requires c <= d < |chans| && chans[d].effect == EffectPatternBreak
    requires forall k :: c <= k < d ==> chans[k].effect != EffectPatternBreak
    ensures ScanEffects(chans, c, t) == ScanEffects(chans[..d], c, t).(row := RowsPerPattern - 1)
    decreases d - c
  {
    if c < d {
      var ch := chans[c];
      assert chans[..d][c] == ch;
      if ch.effect == EffectSetSpeed && ch.param <= 0x1F {
        PatternBreakStopsScan(chans, d, c + 1, if ch.param > 0 then t.(ticksPerRow := ch.param) else t);
      } else if ch.effect == EffectSetSpeed && ch.param >= 0x20 {
        PatternBreakStopsScan(chans, d, c + 1, t.(tempo := ch.param, samplesPerTick := CalculateTickSamples(ch.param)));
      } else {
        PatternBreakStopsScan(chans, d, c + 1, t);
      }
    }
  }

  /** The first channel from `c` on with a pattern break, or |chans| when
      there is none. */
  function FirstBreak(chans: seq<Channel>, c: nat): (b: nat)
    requires c <= |chans|
    decreases |chans| - c
    ensures c <= b <= |chans|
    ensures b < |chans| ==> chans[b].effect == EffectPatternBreak
    ensures forall k :: c <= k < b ==> chans[k].effect != EffectPatternBreak
  {
    if c == |chans| || chans[c].effect == EffectPatternBreak then c else FirstBreak(chans, c + 1)
  }

  /** Set-speed with a parameter the ticks per row can take. */
  predicate SetsSpeed(ch: Channel) {
    ch.effect == EffectSetSpeed && 1 <= ch.param <= 0x1F
  }

  /** Set-speed with a parameter that is a tempo. */
  predicate SetsTempo(ch: Channel) {
    ch.effect == EffectSetSpeed && ch.param >= 0x20
  }

  /** The last channel in [lo, hi) that sets the speed, or -1. */
  function LastSpeedSetter(chans: seq<Channel>, lo: nat, hi: nat): (k: int)
    requires lo <= hi <= |chans|
    decreases hi
    ensures k == -1 || (lo <= k < hi && SetsSpeed(chans[k]))
    ensures k == -1 ==> forall j :: lo <= j < hi ==> !SetsSpeed(chans[j])
    ensures k != -1 ==> forall j :: k < j < hi ==> !SetsSpeed(chans[j])
  {
    if lo == hi then -1
    else if SetsSpeed(chans[hi - 1]) then hi - 1
    else LastSpeedSetter(chans, lo, hi - 1)
  }

  /** The last channel in [lo, hi) that sets the tempo, or -1. */
  function LastTempoSetter(chans: seq<Channel>, lo: nat, hi: nat): (k: int)
    requires lo <= hi <= |chans|
    decreases hi
    ensures k == -1 || (lo <= k < hi && SetsTempo(chans[k]))
    ensures k == -1 ==> forall j :: lo <= j < hi ==> !SetsTempo(chans[j])
    ensures k != -1 ==> forall j :: k < j < hi ==> !SetsTempo(chans[j])
  {
    if lo == hi then -1
    else if SetsTempo(chans[hi - 1]) then hi - 1
    else LastTempoSetter(chans, lo, hi - 1)
  }

  /** The timing the scan from channel `c` should leave, read off the row
      as a whole: row 63 when a pattern break follows, and the ticks per row
      and the tempo of the last setting channel before that break. */
  function Settled(chans: seq<Channel>, c: nat, t: Timing): Timing
    requires c <= |chans|
  {
    var b := FirstBreak(chans, c);
    var s := LastSpeedSetter(chans, c, b);
    var p := LastTempoSetter(chans, c, b);
    Timing(
      if b < |chans| then RowsPerPattern - 1 else t.row,
      if s == -1 then t.ticksPerRow else chans[s].param,
      if p == -1 then t.tempo else chans[p].param,
      if p == -1 then t.samplesPerTick else CalculateTickSamples(chans[p].param))
  }

  /** The scan sets the ticks per row to the parameter of the last speed
      setting before the first pattern break, and the tempo and tick length
      to those of the last tempo setting before it; with none, each keeps
      its value. */
  lemma {:induction false} ScanEffectsSettles(chans: seq<Channel>, c: nat, t: Timing)
    requires c <= |chans|
    ensures ScanEffects(chans, c, t) == Settled(chans, c, t)
    decreases |chans| - c
  {
    if c < |chans| && chans[c].effect != EffectPatternBreak {
      var ch := chans[c];
      var t' :=
        if SetsSpeed(ch) then t.(ticksPerRow := ch.param)
        else if SetsTempo(ch) then t.(tempo := ch.param, samplesPerTick := CalculateTickSamples(ch.param))
        else t;
      assert ScanEffects(chans, c, t) == ScanEffects(chans, c + 1, t');
      ScanEffectsSettles(chans, c + 1, t');
      SettledStep(chans, c, t);
    }
  }

  /** A channel without a pattern break passes its own setting on to the
      rest of the row. */
  lemma SettledStep(chans: seq<Channel>, c: nat, t: Timing)
    requires c < |chans| && chans[c].effect != EffectPatternBreak
    ensures Settled(chans, c, t) ==
      Settled(chans, c + 1,
        if SetsSpeed(chans[c]) then t.(ticksPerRow := chans[c].param)
        else if SetsTempo(chans[c]) then t.(tempo := chans[c].param, samplesPerTick := CalculateTickSamples(chans[c].param))
        else t)
  {
    var b := FirstBreak(chans, c);
    assert b == FirstBreak(chans, c + 1);
    SpeedSetterPeel(chans, c, b);
    TempoSetterPeel(chans, c, b);
  }

  /** The last speed setting in [c, b) is the last one in [c + 1, b), or
      channel c itself when there is none there. */
  lemma SpeedSetterPeel(chans: seq<Channel>, c: nat, b: nat)
    requires c < b <= |chans|
    ensures LastSpeedSetter(chans, c, b) ==
      var s' := LastSpeedSetter(chans, c + 1, b);
      if s' != -1 then s' else if SetsSpeed(chans[c]) then c else -1
  {
  }

  /** The last tempo setting in [c, b) is the last one in [c + 1, b), or
      channel c itself when there is none there. */
  lemma TempoSetterPeel(chans: seq<Channel>, c: nat, b: nat)
    requires c < b <= |chans|
    ensures LastTempoSetter(chans, c, b) ==
      var p' := LastTempoSetter(chans, c + 1, b);
      if p' != -1 then p' else if SetsTempo(chans[c]) then c else -1
  {
  }

  /** How many samples a tick produces: the tick length, capped by the
      1024-sample processing buffer. */
  function SamplesToGenerate(samplesPerTick: int): (n: nat)
    requires samplesPerTick >= 0
    ensures n <= ProcessBufferSize && n <= samplesPerTick
    ensures n == samplesPerTick || n == ProcessBufferSize
  {
    if samplesPerTick < ProcessBufferSize then samplesPerTick else ProcessBufferSize
  }

  /** The counter update at the end of a loop iteration, as (tick, row,
      position): the tick wraps at `ticksPerRow` and then advances the row,
      the row wraps at 64 and then advances the position, and the position
      wraps to 0 at the song length. */
  function NextCounters(tick: int, row: int, position: int, ticksPerRow: int, songLength: int): (r: (int, int, int))
    requires 0 <= tick < ticksPerRow && 0 <= row < RowsPerPattern
    requires 0 <= position && (position < songLength || position == 0)
    ensures 0 <= r.0 < ticksPerRow && 0 <= r.1 < RowsPerPattern
    ensures 0 <= r.2 && (r.2 < songLength || r.2 == 0)
    ensures r.0 == 0 <==> tick + 1 == ticksPerRow
    ensures r.0 != 0 ==> r.0 == tick + 1 && r.1 == row && r.2 == position
    ensures r.0 == 0 && row + 1 < RowsPerPattern ==> r.1 == row + 1 && r.2 == position
    ensures r.0 == 0 && row + 1 == RowsPerPattern ==> r.1 == 0 && r.2 == (if position + 1 < songLength then position + 1 else 0)
  {
    var tick' := tick + 1;
    if tick' >= ticksPerRow then
      var row' := row + 1;
      if row' >= RowsPerPattern then
        var position' := position + 1;
        (0, 0, if position' >= songLength then 0 else position')
      else (0, row', position)
    else (tick', row, position)
  }

  /** The loop's state: its local counters and the four channels. */
  datatype PlayerState = PlayerState(
    position: int,
    row: int,
    ticksPerRow: int,
    currentTick: int,
    tempo: int,
    samplesPerTick: int,
    channels: seq<Channel>)

  function TimingOf(st: PlayerState): Timing {
    Timing(st.row, st.ticksPerRow, st.tempo, st.samplesPerTick)
  }

  /** The counters are in range: the tick below the row length, the song
      position inside the song (or 0 for an empty song). */
  predicate StateValid(m: ModFile, st: PlayerState) {
    && TimingValid(TimingOf(st))
    && 0 <= st.currentTick < st.ticksPerRow
    && 0 <= st.position && (st.position < m.songLength || st.position == 0)
    && |st.channels| == NumChannels
  }

  /** The state before the first iteration: position, row and tick 0,
      5 ticks per row, tempo 125, silent channels. */
  function InitialState(): (st: PlayerState)
    ensures forall m :: StateValid(m, st)
  {
    PlayerState(0, 0, DefaultTicksPerRow, 0, DefaultTempo, CalculateTickSamples(DefaultTempo),
                seq(NumChannels, _ => SilentChannel))
  }

  /** What the loop needs of the module: readable payloads, a song within
      the position table, and every row of every used position readable. */
  ghost predicate Playable(m: ModFile) {
    && PayloadsInImage(m)
    && m.songLength <= PositionTableSize
    && forall p: nat, r: nat :: (p < m.songLength || p == 0) && r < RowsPerPattern ==> RowReadable(m, p, r)
  }

  /** One iteration of the playback loop: the state after it and the
      samples the tick produced. */
  function StepSpec(m: ModFile, st: PlayerState, increment: u16 -> u32): (r: (PlayerState, seq<i16>))
    requires Playable(m) && StateValid(m, st)
    ensures StateValid(m, r.0)
    ensures |r.1| == SamplesToGenerate(r.0.samplesPerTick)
    ensures st.currentTick != 0 ==> TimingOf(r.0).(row := st.row) == TimingOf(st)
  {
    var rowed :=
      if st.currentTick == 0 then RowChannels(m, st.channels, st.position, st.row, increment) else st.channels;
    var t := if st.currentTick == 0 then ScanEffects(rowed, 0, TimingOf(st)) else TimingOf(st);
    var ticked := Tick(m, rowed, SamplesToGenerate(t.samplesPerTick));
    var counters := NextCounters(st.currentTick, t.row, st.position, t.ticksPerRow, m.songLength);
    (PlayerState(counters.2, counters.1, t.ticksPerRow, counters.0, t.tempo, t.samplesPerTick, ticked.1), ticked.0)
  }

  /** The local state of `modplayer_task`. */
  class Player {
    var position: int
    var row: int
    var ticksPerRow: int
    var currentTick: int
    var tempo: int
    var samplesPerTick: int
    const channels: array<Channel>
    const buffer: array<i16>

    ghost function State(): PlayerState
      reads this, channels
    {
      PlayerState(position, row, ticksPerRow, currentTick, tempo, samplesPerTick, channels[..])
    }

    ghost predicate Valid(m: ModFile)
      reads this, channels
    {
      channels.Length == NumChannels && buffer.Length == ProcessBufferSize && StateValid(m, State())
    }

    /** The initialisation before the loop. */
    constructor (m: ModFile)
      ensures Valid(m) && fresh(channels) && fresh(buffer)
      ensures State() == InitialState()
    {
      position := 0;
      row := 0;
      ticksPerRow := DefaultTicksPerRow;
      currentTick := 0;
      tempo := DefaultTempo;
      samplesPerTick := CalculateTickSamples(DefaultTempo);
      channels := new Channel[NumChannels](_ => SilentChannel);
      buffer := new i16[ProcessBufferSize](_ => 0);
    }

    /** The tick-0 part of the loop body: apply the row, then scan the
        channels' effects. */
    method StartRow(m: ModFile, increment: u16 -> u32)
      requires Playable(m) && Valid(m) && currentTick == 0
      modifies this`row, this`ticksPerRow, this`tempo, this`samplesPerTick, channels
      ensures Valid(m)
      ensures channels[..] == RowChannels(m, old(channels[..]), position, old(row), increment)
      ensures TimingOf(State()) == ScanEffects(channels[..], 0, old(TimingOf(State())))
    {
      PlayableRow(m, position, row);
      ProcessRow(m, channels, position, row, increment);
      var t := ScanChannels(channels, Timing(row, ticksPerRow, tempo, samplesPerTick));
      row, ticksPerRow, tempo, samplesPerTick := t.row, t.ticksPerRow, t.tempo, t.samplesPerTick;
    }

    /** The mixing part of the loop body: one tick of samples into the
        processing buffer, then into the ring. */
    method PlayTick(m: ModFile, ring: RingBuffer.ModRing, scale: i16 -> i16)
      requires PayloadsInImage(m) && Valid(m) && ring.Valid()
      requires ring.data != buffer
      modifies channels, buffer, ring, ring.data
      ensures Valid(m) && ring.Valid()
      ensures var ticked := Tick(m, old(channels[..]), SamplesToGenerate(samplesPerTick));
        && channels[..] == ticked.1
        && ring.readPos == old(ring.readPos)
        && ring.Contents == old(ring.Contents) +
             RingBuffer.Doubled(RingBuffer.Scaled(ticked.0, scale))[..RingBuffer.Min(2 * |ticked.0|, ring.data.Length - 1 - |old(ring.Contents)|)]
    {
      var samplesToGenerate := if samplesPerTick < ProcessBufferSize then samplesPerTick else ProcessBufferSize;
      ProcessTick(m, channels, buffer, samplesToGenerate);
      ring.WriteSamples(buffer[..samplesToGenerate], scale);
    }

    /** The counter update at the end of the loop body. */
    method AdvanceCounters(m: ModFile)
      requires Valid(m)
      modifies this`currentTick, this`row, this`position
      ensures Valid(m)
      ensures (currentTick, row, position) ==
        NextCounters(old(currentTick), old(row), old(position), ticksPerRow, m.songLength)
    {
      currentTick := currentTick + 1;
      if currentTick >= ticksPerRow {
        currentTick := 0;
        row := row + 1;
        if row >= RowsPerPattern {
          row := 0;
          position := position + 1;
          if position >= m.songLength {
            position := 0;
          }
        }
      }
    }

    /** One iteration of the `modplayer_task` loop. `increment` stands for
        the float period-to-increment conversion and `scale` for the float
        volume scaling applied on the way into the ring. */
    method Step(m: ModFile, ring: RingBuffer.ModRing, increment: u16 -> u32, scale: i16 -> i16)
      requires Playable(m) && Valid(m) && ring.Valid()
      requires ring.data != buffer
      modifies this, channels, buffer, ring, ring.data
      ensures Valid(m) && ring.Valid()
      ensures State() == StepSpec(m, old(State()), increment).0
      ensures ring.readPos == old(ring.readPos)
      ensures var produced := StepSpec(m, old(State()), increment).1;
        ring.Contents == old(ring.Contents) +
          RingBuffer.Doubled(RingBuffer.Scaled(produced, scale))[..RingBuffer.Min(2 * |produced|, ring.data.Length - 1 - |old(ring.Contents)|)]
    {
      if currentTick == 0 {
        StartRow(m, increment);
      }
      PlayTick(m, ring, scale);
      AdvanceCounters(m);
    }
  }

  /** A song position and row the loop can reach is readable. */
  lemma PlayableRow(m: ModFile, p: nat, r: nat)
    requires Playable(m) && (p < m.songLength || p == 0) && r < RowsPerPattern
    ensures RowReadable(m, p, r)
  {
  }

  /** The effect-scan loop over the channels after a row is applied. */
  method ScanChannels(channels: array<Channel>, t: Timing) returns (r: Timing)
    ensures r == ScanEffects(channels[..], 0, t)
  {
    r := t;
    var c := 0;
    while c < channels.Length
      invariant 0 <= c <= channels.Length
      invariant ScanEffects(channels[..], c, r) == ScanEffects(channels[..], 0, t)
    {
      var ch := channels[c];
      if ch.effect == EffectPatternBreak {
        r := r.(row := RowsPerPattern - 1);
        return;
      } else if ch.effect == EffectSetSpeed && ch.param <= 0x1F {
        if ch.param > 0 {
          r := r.(ticksPerRow := ch.param);
        }
      } else if ch.effect == EffectSetSpeed && ch.param >= 0x20 {
        r := r.(tempo := ch.param, samplesPerTick := CalculateTickSamples(ch.param));
      }
      c := c + 1;
    }
  }
}
