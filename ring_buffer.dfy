/** The single-producer, single-consumer ring that carries tracker output
    to the audio task: `mod_ring_buffer` with `mod_write_pos` (moved only by
    the producer) and `mod_read_pos` (moved only by the consumer). One slot
    is always left empty, so equal indices mean "empty" and at most
    capacity - 1 samples are ever unread. */
module RingBuffer {
  import opened CTypes

  /** The slot `k` places after `start` in a ring of `n` slots. */
  function Slot(start: nat, k: nat, n: nat): (s: nat)
    requires start < n && k < n
    ensures s < n
  {
    if start + k < n then start + k else start + k - n
  }

  /** How many places after `start` slot `k` lies in a ring of `n` slots. */
  function Distance(start: nat, k: nat, n: nat): (d: nat)
    requires start < n && k < n
    ensures d < n
  {
    if start <= k then k - start else k + n - start
  }

  lemma SlotDistance(start: nat, t: nat, n: nat)
    requires start < n && t < n
    ensures Distance(start, Slot(start, t, n), n) == t
  {
  }

  /** Advancing an index with `(pos + 1) % n`. */
  lemma NextIndex(pos: nat, n: nat)
    requires pos < n
    ensures (pos + 1) % n == if pos + 1 == n then 0 else pos + 1
  {
    if pos + 1 < n {
      assert (pos + 1) / n == 0;
    } else {
      assert (pos + 1) / n == 1;
    }
  }

  /** Each input sample offered twice: the 22050 Hz to 44100 Hz upsampling
      by repetition. */
  function Doubled(s: seq<i16>): (d: seq<i16>)
    ensures |d| == 2 * |s|
    ensures forall k :: 0 <= k < |d| ==> d[k] == s[k / 2]
  {
    if s == [] then [] else [s[0], s[0]] + Doubled(s[1..])
  }

  /** Each sample through the volume multiply (a float computation, given
      here as `scale`). What the producer offers for `samples` is this
      sequence `Doubled`. */
  function Scaled(samples: seq<i16>, scale: i16 -> i16): (t: seq<i16>)
    ensures |t| == |samples|
    ensures forall k {:trigger samples[k]} :: 0 <= k < |t| ==> t[k] == scale(samples[k])
  {
    seq(|samples|, k requires 0 <= k < |samples| => scale(samples[k]))
  }

  lemma OfferedAt(samples: seq<i16>, scale: i16 -> i16, i: nat)
    requires i < |samples|
    ensures Doubled(Scaled(samples, scale))[2 * i] == scale(samples[i])
    ensures Doubled(Scaled(samples, scale))[2 * i + 1] == scale(samples[i])
  {
    var scaled := Scaled(samples, scale);
    assert (2 * i) / 2 == i && (2 * i + 1) / 2 == i;
    assert Doubled(scaled)[2 * i] == scaled[i];
    assert Doubled(scaled)[2 * i + 1] == scaled[i];
  }

  /** Offering the pair at `done` extends the accepted prefix by as much of
      the pair as fits in the room left. */
  lemma PrefixGrows(base: seq<i16>, offered: seq<i16>, done: nat, room: nat, v: i16)
    requires done + 2 <= |offered| && offered[done] == v && offered[done + 1] == v
    ensures base + offered[..Min(done + 2, room)] ==
      (base + offered[..Min(done, room)]) + [v, v][..Min(2, room - Min(done, room))]
  {
    assert offered[..Min(done + 2, room)] ==
      offered[..Min(done, room)] + [v, v][..Min(2, room - Min(done, room))];
  }

  function Min(a: nat, b: nat): nat {
    if a <= b then a else b
  }

  class ModRing {
    /** `mod_ring_buffer`; its length is MOD_BUFFER_SIZE. */
    const data: array<i16>
    /** `mod_write_pos`, advanced by the producer only. */
    var writePos: nat
    /** `mod_read_pos`, advanced by the consumer only. */
    var readPos: nat
    /** The unread samples, oldest first. */
    ghost var Contents: seq<i16>

    ghost predicate Valid()
      reads this, data
    {
      && 0 < data.Length
      && readPos < data.Length
      && |Contents| < data.Length
      && writePos == Slot(readPos, |Contents|, data.Length)
      && forall k :: 0 <= k < |Contents| ==> Contents[k] == data[Slot(readPos, k, data.Length)]
    }

    /** `modplayer_init`: a zeroed ring with both indices at 0. */
    constructor (capacity: nat)
      requires capacity > 0
      ensures Valid() && fresh(data)
      ensures data.Length == capacity
      ensures forall k :: 0 <= k < capacity ==> data[k] == 0
      ensures readPos == 0 && writePos == 0 && Contents == []
    {
      data := new i16[capacity](_ => 0);
      writePos := 0;
      readPos := 0;
      Contents := [];
    }

    /** The indices meet exactly when nothing is unread. */
    lemma EmptyIffIndicesMeet()
      requires Valid()
      ensures writePos == readPos <==> Contents == []
      ensures writePos < data.Length
    {
    }

    /** One pass of the inner loop of `write_to_ring_buffer`: the value is
        stored at the write index and the index advances, unless advancing
        would meet the read index, in which case the value is dropped. */
    method Offer(v: i16) returns (stored: bool)
      requires Valid()
      modifies this, data
      ensures Valid()
      ensures readPos == old(readPos)
      ensures stored <==> |old(Contents)| < data.Length - 1
      ensures Contents == if stored then old(Contents) + [v] else old(Contents)
      ensures stored ==> writePos == (old(writePos) + 1) % data.Length && writePos != readPos
      ensures !stored ==> writePos == old(writePos)
      ensures forall k :: 0 <= k < data.Length && (!stored || k != old(writePos)) ==> data[k] == old(data[k])
    {
      var next := (writePos + 1) % data.Length;
      NextIndex(writePos, data.Length);
      if next == readPos {
        return false;
      }
      data[writePos] := v;
      writePos := next;
      Contents := Contents + [v];
      stored := true;
    }

    /** The inner loop of `write_to_ring_buffer`: one scaled value offered
        twice, each copy stored only while there is room. */
    method OfferTwice(v: i16)
      requires Valid()
      modifies this, data
      ensures Valid()
      ensures readPos == old(readPos)
      ensures Contents == old(Contents) + [v, v][..Min(2, data.Length - 1 - |old(Contents)|)]
      ensures forall k :: 0 <= k < data.Length && !(|old(Contents)| <= Distance(readPos, k, data.Length) < |Contents|) ==>
        data[k] == old(data[k])
    {
      for j := 0 to 2
        invariant Valid() && readPos == old(readPos)
        invariant Contents == old(Contents) + [v, v][..Min(j, data.Length - 1 - |old(Contents)|)]
        invariant forall k :: 0 <= k < data.Length && !(|old(Contents)| <= Distance(readPos, k, data.Length) < |Contents|) ==>
          data[k] == old(data[k])
      {
        SlotDistance(readPos, |Contents|, data.Length);
        var stored := Offer(v);
      }
    }

    /** `write_to_ring_buffer`: every value is offered twice. The unread
        samples grow by the longest prefix of the offered values that fits
        in the free room (the rest is dropped), the read index is untouched,
        and the only slots that change are the ones just filled, which lie
        between the old and the new end of the unread samples. */
    method WriteSamples(samples: seq<i16>, scale: i16 -> i16)
      requires Valid()
      modifies this, data
      ensures Valid()
      ensures readPos == old(readPos)
      ensures Contents == old(Contents) + Doubled(Scaled(samples, scale))[..Min(2 * |samples|, data.Length - 1 - |old(Contents)|)]
      ensures |Contents| > |old(Contents)| ==> writePos != readPos
      ensures forall k :: 0 <= k < data.Length && !(|old(Contents)| <= Distance(readPos, k, data.Length) < |Contents|) ==>
        data[k] == old(data[k])
    {
      ghost var offered := Doubled(Scaled(samples, scale));
      ghost var room := data.Length - 1 - |Contents|;
      for i := 0 to |samples|
        invariant Valid() && readPos == old(readPos)
        invariant Contents == old(Contents) + offered[..Min(2 * i, room)]
        invariant forall k :: 0 <= k < data.Length && !(|old(Contents)| <= Distance(readPos, k, data.Length) < |Contents|) ==>
          data[k] == old(data[k])
      {
        var scaled := scale(samples[i]);
        OfferedAt(samples, scale, i);
        PrefixGrows(old(Contents), offered, 2 * i, room, scaled);
        assert data.Length - 1 - |Contents| == room - Min(2 * i, room);
        OfferTwice(scaled);
      }
    }

    /** The dequeue in `audio_task`: when the indices differ, the oldest
        unread sample is taken and the read index advances by one modulo
        the capacity; the write index is never touched. */
    method Read() returns (v: Option<i16>)
      requires Valid()
      modifies this
      ensures Valid()
      ensures writePos == old(writePos)
      ensures old(Contents) == [] ==> v == None && readPos == old(readPos) && Contents == []
      ensures old(Contents) != [] ==>
        && v == Some(old(Contents)[0])
        && readPos == (old(readPos) + 1) % data.Length
        && Contents == old(Contents)[1..]
    {
      if readPos != writePos {
        v := Some(data[readPos]);
        NextIndex(readPos, data.Length);
        readPos := (readPos + 1) % data.Length;
        Contents := Contents[1..];
      } else {
        v := None;
      }
    }
  }
}
