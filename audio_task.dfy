/** The integer part of `audio_task`: pending bounce-sound triggers claim a
    playback slot, and each 64-frame period takes up to one tracker sample
    per frame from the ring and advances every playing sound by one frame
    per frame. The float mixing of those values is not part of this model. */
module AudioTask {
  import opened CTypes
  import RingBuffer

  const MaxActiveSounds := 5
  const FramesPerWrite := 64
  /** The number of bounce sounds, and of trigger flags. */
  const NumBounceSounds := 5

  /** `active_sound_t` without its float volume. A sample pointer is `None`
      for NULL, or the identity of one of the constant bounce sounds. */
  datatype SoundSlot = SoundSlot(sampleData: Option<nat>, sampleLength: u32, position: u32, active: bool)

  /** A slot as the start-up `memset` leaves it. */
  const EmptySlot := SoundSlot(None, 0, 0, false)

  /** A playing sound's position is inside its sample, so the read of
      `sample_data[playback_position]` is in bounds. */
  predicate SlotValid(s: SoundSlot) {
    s.active ==> s.position < s.sampleLength
  }

  /** A slot trigger `sound` may take: a free one, or one holding that sound. */
  predicate Claimable(s: SoundSlot, sound: nat) {
    !s.active || s.sampleData == Some(sound)
  }

  /** The slot search from index `k` on: the lowest claimable index, or -1. */
  function FirstSlot(slots: seq<SoundSlot>, sound: nat, k: nat): (r: int)
    requires k <= |slots|
    decreases |slots| - k
    ensures r == -1 || k <= r < |slots|
    ensures r >= 0 ==> Claimable(slots[r], sound) && forall j :: k <= j < r ==> !Claimable(slots[j], sound)
    ensures r == -1 <==> forall j :: k <= j < |slots| ==> !Claimable(slots[j], sound)
  {
    if k == |slots| then -1
    else if Claimable(slots[k], sound) then k
    else FirstSlot(slots, sound, k + 1)
  }

  /** A trigger of `sound`: the first claimable slot restarts with that
      sound from position 0; every other slot is left alone, and if no slot
      is claimable nothing changes. */
  function Claim(slots: seq<SoundSlot>, sound: nat, length: u32): (r: seq<SoundSlot>)
    ensures |r| == |slots|
    ensures FirstSlot(slots, sound, 0) == -1 ==> r == slots
    ensures var i := FirstSlot(slots, sound, 0);
      i >= 0 ==> r[i] == SoundSlot(Some(sound), length, 0, true) && forall j :: 0 <= j < |r| && j != i ==> r[j] == slots[j]
  {
    var i := FirstSlot(slots, sound, 0);
    if i == -1 then slots else slots[i := SoundSlot(Some(sound), length, 0, true)]
  }

  /** A claim with a nonempty sound keeps every slot valid. */
  lemma ClaimKeepsSlotsValid(slots: seq<SoundSlot>, sound: nat, length: u32)
    requires forall j :: 0 <= j < |slots| ==> SlotValid(slots[j])
    requires length > 0
    ensures forall j :: 0 <= j < |Claim(slots, sound, length)| ==> SlotValid(Claim(slots, sound, length)[j])
  {
    var r := Claim(slots, sound, length);
    var i := FirstSlot(slots, sound, 0);
    forall j | 0 <= j < |r|
      ensures SlotValid(r[j])
    {
      if i >= 0 && j == i {
        assert r[j] == SoundSlot(Some(sound), length, 0, true);
      } else {
        assert r[j] == slots[j];
      }
    }
  }

  /** The search does not keep one slot per sound: a free slot before the
      one already playing a sound gets a second copy of it. */
  lemma DuplicateCopyCanStart()
    ensures var slots := [EmptySlot, SoundSlot(Some(7), 100, 10, true)];
      var r := Claim(slots, 7, 100);
      r[0].active && r[0].sampleData == Some(7) && r[1].active && r[1].sampleData == Some(7)
  {
    var slots := [EmptySlot, SoundSlot(Some(7), 100, 10, true)];
    assert FirstSlot(slots, 7, 0) == 0;
  }

  /** The trigger pass over flags `i` and up: each raised flag claims a slot
      for bounce sound `i`, in flag order. */
  function ClaimAll(slots: seq<SoundSlot>, triggers: seq<bool>, sounds: seq<nat>, lengths: seq<u32>, i: nat): (r: seq<SoundSlot>)
    requires |triggers| == |sounds| == |lengths| && i <= |triggers|
    decreases |triggers| - i
    ensures |r| == |slots|
    ensures (forall k :: i <= k < |triggers| ==> !triggers[k]) ==> r == slots
  {
    if i == |triggers| then slots
    else ClaimAll(if triggers[i] then Claim(slots, sounds[i], lengths[i]) else slots, triggers, sounds, lengths, i + 1)
  }

  /** Triggers of nonempty sounds keep every slot valid. */
  lemma {:induction false} ClaimAllKeepsSlotsValid(slots: seq<SoundSlot>, triggers: seq<bool>, sounds: seq<nat>, lengths: seq<u32>, i: nat)
    requires |triggers| == |sounds| == |lengths| && i <= |triggers|
    requires forall j :: 0 <= j < |slots| ==> SlotValid(slots[j])
    requires forall k :: 0 <= k < |lengths| ==> lengths[k] > 0
    ensures forall j :: 0 <= j < |slots| ==> SlotValid(ClaimAll(slots, triggers, sounds, lengths, i)[j])
    decreases |triggers| - i
  {
    if i < |triggers| {
      var next := if triggers[i] then Claim(slots, sounds[i], lengths[i]) else slots;
      if triggers[i] {
        ClaimKeepsSlotsValid(slots, sounds[i], lengths[i]);
      }
      ClaimAllKeepsSlotsValid(next, triggers, sounds, lengths, i + 1);
    }
  }

  /** One frame of a sound: a playing sound moves one sample on and stops
      once its position reaches its length; a stopped one stays as it is. */
  function AdvanceSlot(s: SoundSlot): (r: SoundSlot)
    ensures !s.active ==> r == s
    ensures r.sampleData == s.sampleData && r.sampleLength == s.sampleLength
    ensures SlotValid(s) ==> SlotValid(r)
    ensures SlotValid(s) && s.active ==> r.position == s.position + 1 && (r.active <==> s.position + 1 < s.sampleLength)
  {
    if !s.active then s
    else
      var p := WrapU32(s.position + 1);
      s.(position := p, active := !(p >= s.sampleLength))
  }

  /** A sound after `f` frames. */
  function AdvanceBy(s: SoundSlot, f: nat): (r: SoundSlot)
    ensures r.sampleData == s.sampleData && r.sampleLength == s.sampleLength
  {
    if f == 0 then s else AdvanceSlot(AdvanceBy(s, f - 1))
  }

  /** A valid playing sound plays for exactly its remaining length: after
      `f` frames it is still playing iff `position + f` is below its length,
      its position has moved by `f` while it plays, and it stops with the
      position at its length. */
  lemma {:induction false} AdvanceByFrames(s: SoundSlot, f: nat)
    requires SlotValid(s) && s.active
    ensures var r := AdvanceBy(s, f);
      && SlotValid(r)
      && (r.active <==> s.position + f < s.sampleLength)
      && (r.active ==> r.position == s.position + f)
      && (!r.active ==> r.position == s.sampleLength)
  {
    if f > 0 {
      AdvanceByFrames(s, f - 1);
    }
  }

  /** The state `audio_task` keeps between periods. */
  class SoundMixer {
    /** `active_sounds`. */
    const activeSounds: array<SoundSlot>
    /** `sound_trigger`, raised by the main loop on a bounce. */
    const soundTrigger: array<bool>

    ghost predicate Valid()
      reads this
    {
      activeSounds.Length == MaxActiveSounds && soundTrigger.Length == NumBounceSounds
    }

    /** The start-up state: cleared slots and no pending trigger. */
    constructor ()
      ensures Valid() && fresh(activeSounds) && fresh(soundTrigger)
      ensures forall i :: 0 <= i < MaxActiveSounds ==> activeSounds[i] == EmptySlot
      ensures forall i :: 0 <= i < NumBounceSounds ==> !soundTrigger[i]
    {
      activeSounds := new SoundSlot[MaxActiveSounds](_ => EmptySlot);
      soundTrigger := new bool[NumBounceSounds](_ => false);
    }

    /** The inner slot search for one trigger, with its early exit. */
    method ClaimSlot(sound: nat, length: u32)
      requires Valid()
      modifies activeSounds
      ensures activeSounds[..] == Claim(old(activeSounds[..]), sound, length)
    {
      var slot := 0;
      while slot < MaxActiveSounds
        invariant 0 <= slot <= MaxActiveSounds
        invariant activeSounds[..] == old(activeSounds[..])
        invariant FirstSlot(activeSounds[..], sound, 0) == FirstSlot(activeSounds[..], sound, slot)
      {
        if !activeSounds[slot].active || activeSounds[slot].sampleData == Some(sound) {
          activeSounds[slot] := SoundSlot(Some(sound), length, 0, true);
          return;
        }
        slot := slot + 1;
      }
    }

    /** Step 1 of the audio loop: every raised trigger claims a slot for
        its bounce sound, and every trigger ends up cleared. `sounds` and
        `lengths` are the constant bounce-sound table. */
    method HandleTriggers(sounds: seq<nat>, lengths: seq<u32>)
      requires Valid() && |sounds| == |lengths| == NumBounceSounds
      modifies activeSounds, soundTrigger
      ensures activeSounds[..] == ClaimAll(old(activeSounds[..]), old(soundTrigger[..]), sounds, lengths, 0)
      ensures forall i :: 0 <= i < NumBounceSounds ==> !soundTrigger[i]
    {
      ghost var triggers := soundTrigger[..];
      for i := 0 to NumBounceSounds
        invariant soundTrigger[i..] == triggers[i..]
        invariant forall k :: 0 <= k < i ==> !soundTrigger[k]
        invariant ClaimAll(activeSounds[..], triggers, sounds, lengths, i) ==
          ClaimAll(old(activeSounds[..]), triggers, sounds, lengths, 0)
      {
        assert triggers[i] == soundTrigger[i];
        if soundTrigger[i] {
          ClaimSlot(sounds[i], lengths[i]);
          soundTrigger[i] := false;
        }
      }
    }

    /** The per-frame advance of every slot. */
    method AdvanceSounds()
      requires Valid()
      modifies activeSounds
      ensures forall i :: 0 <= i < MaxActiveSounds ==> activeSounds[i] == AdvanceSlot(old(activeSounds[i]))
    {
      for i := 0 to MaxActiveSounds
        invariant forall k :: 0 <= k < i ==> activeSounds[k] == AdvanceSlot(old(activeSounds[k]))
        invariant forall k :: i <= k < MaxActiveSounds ==> activeSounds[k] == old(activeSounds[k])
      {
        var s := activeSounds[i];
        if s.active {
          var p := WrapU32(s.position + 1);
          activeSounds[i] := s.(position := p, active := !(p >= s.sampleLength));
        }
      }
    }

    /** Step 2 of the audio loop: 64 frames, each taking the oldest unread
        tracker sample when there is one and advancing every sound. The
        samples taken (which the float mix adds in) are returned: the
        first min(64, unread) in order; the ring keeps the rest, its write
        index untouched; every slot is 64 frames further on. */
    method MixPeriod(ring: RingBuffer.ModRing) returns (consumed: seq<i16>)
      requires Valid() && ring.Valid()
      requires forall i :: 0 <= i < MaxActiveSounds ==> SlotValid(activeSounds[i])
      modifies ring, activeSounds
      ensures ring.Valid() && ring.writePos == old(ring.writePos)
      ensures |consumed| == RingBuffer.Min(FramesPerWrite, |old(ring.Contents)|)
      ensures consumed == old(ring.Contents)[..|consumed|]
      ensures ring.Contents == old(ring.Contents)[|consumed|..]
      ensures forall i :: 0 <= i < MaxActiveSounds ==> activeSounds[i] == AdvanceBy(old(activeSounds[i]), FramesPerWrite)
    {
      consumed := [];
      for frame := 0 to FramesPerWrite
        invariant ring.Valid() && ring.writePos == old(ring.writePos)
        invariant |consumed| == RingBuffer.Min(frame, |old(ring.Contents)|)
        invariant consumed == old(ring.Contents)[..|consumed|]
        invariant ring.Contents == old(ring.Contents)[|consumed|..]
        invariant forall i :: 0 <= i < MaxActiveSounds ==> activeSounds[i] == AdvanceBy(old(activeSounds[i]), frame)
      {
        var v := ring.Read();
        if v.Some? {
          consumed := consumed + [v.value];
        }
        AdvanceSounds();
      }
    }
  }
}
