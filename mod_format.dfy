/** The 4-channel ProTracker "M.K." module layout and its loader.

    A module image is: a 20-byte title, 31 sample descriptors of 30 bytes
    (22-byte name, then big-endian words for length, a finetune byte, a
    volume byte, big-endian words for repeat point and repeat length; every
    word counts 16-bit units), the song length, an unused byte, a 128-entry
    position table, a 4-byte format tag, then the pattern block (64 rows of
    4 channels of 4-byte cells per pattern), then the sample payloads back to
    back. */
module ModFormat {
  import opened CTypes

  const MaxSamples := 31
  const NumChannels := 4
  const RowsPerPattern := 64
  const BytesPerNote := 4
  const TitleSize := 20
  const NameSize := 22
  const DescriptorSize := 30
  const SongLengthOffset := TitleSize + MaxSamples * DescriptorSize
  const PositionsOffset := SongLengthOffset + 2
  const PositionTableSize := 128
  const TagSize := 4
  const PatternDataOffset := PositionsOffset + PositionTableSize + TagSize
  const CellsPerPattern := RowsPerPattern * NumChannels
  const PatternBytes := CellsPerPattern * BytesPerNote

  /** One decoded pattern cell. */
  datatype Note = Note(sample: byte, period: u16, effect: byte, param: byte)

  /** One sample descriptor; `data` is the offset of the payload in the
      image, or None for the null pointer a zero-length sample gets. */
  datatype Sample = Sample(
    length: u16,
    finetune: byte,
    volume: byte,
    repeatPoint: u16,
    repeatLength: u16,
    data: Option<nat>)

  /** The loaded module. `patterns` holds the cells in pattern, row,
      channel order; `image` is the embedded blob the payload offsets
      point into. The title and sample names are not kept. */
  datatype ModFile = ModFile(
    samples: seq<Sample>,
    songLength: byte,
    positions: seq<byte>,
    numPatterns: byte,
    patterns: seq<Note>,
    image: seq<byte>)

  // ---------------------------------------------------------------------
  // Big-endian words

  /** `read_big_endian_16`: the high byte first. */
  function ReadBigEndian16(s: seq<byte>, off: nat): (w: u16)
    requires off + 2 <= |s|
    ensures w / 0x100 == s[off] && w % 0x100 == s[off + 1]
  {
    (s[off] as int) * 0x100 + s[off + 1] as int
  }

  /** The two bytes a big-endian word is stored as. */
  function BigEndian16(w: u16): (s: seq<byte>)
    ensures |s| == 2
  {
    [w / 0x100, w % 0x100]
  }

  lemma ReadBigEndian16Inverts(w: u16)
    ensures ReadBigEndian16(BigEndian16(w), 0) == w
  {
  }

  lemma BigEndian16Inverts(s: seq<byte>, off: nat)
    requires off + 2 <= |s|
    ensures BigEndian16(ReadBigEndian16(s, off)) == s[off..off + 2]
  {
    var w := ReadBigEndian16(s, off);
    assert w / 0x100 == s[off];
    assert w % 0x100 == s[off + 1];
  }

  /** Descriptor words count 16-bit units; the loader doubles them into a
      uint16_t byte count, which wraps for words of 0x8000 and above. */
  function WordToBytes(w: u16): (n: u16)
    ensures n % 2 == 0
    ensures w < 0x8000 ==> n == 2 * w
    ensures w >= 0x8000 ==> n == 2 * w - 0x1_0000
  {
    WrapU16(w * 2)
  }

  // ---------------------------------------------------------------------
  // Header

  function DescriptorOffset(i: nat): nat {
    TitleSize + i * DescriptorSize
  }

  /** Sample descriptor `i` as the header stores it (payload not yet placed). */
  function DescriptorAt(image: seq<byte>, i: nat): (s: Sample)
    requires i < MaxSamples && PatternDataOffset <= |image|
    ensures DescriptorOffset(i) + DescriptorSize <= PatternDataOffset
    ensures s.finetune == image[DescriptorOffset(i) + 24] && s.volume == image[DescriptorOffset(i) + 25]
    ensures s.length == WordToBytes(ReadBigEndian16(image, DescriptorOffset(i) + 22))
    ensures s.repeatPoint == WordToBytes(ReadBigEndian16(image, DescriptorOffset(i) + 26))
    ensures s.repeatLength == WordToBytes(ReadBigEndian16(image, DescriptorOffset(i) + 28))
    ensures s.length % 2 == 0 && s.repeatPoint % 2 == 0 && s.repeatLength % 2 == 0
    ensures s.data == None
  {
    var off := DescriptorOffset(i) + NameSize;
    Sample(
      WordToBytes(ReadBigEndian16(image, off)),
      image[off + 2],
      image[off + 3],
      WordToBytes(ReadBigEndian16(image, off + 4)),
      WordToBytes(ReadBigEndian16(image, off + 6)),
      None)
  }

  /** The largest of the first `n` positions, 0 when there are none: the
      scan the loader runs before adding one. */
  function MaxPosition(positions: seq<byte>, n: nat): (mx: byte)
    requires n <= |positions|
    ensures forall i :: 0 <= i < n ==> positions[i] <= mx
    ensures mx == 0 || exists i :: 0 <= i < n && positions[i] == mx
  {
    if n == 0 then 0
    else
      var m := MaxPosition(positions, n - 1);
      if positions[n - 1] > m then positions[n - 1] else m
  }

  function SongLengthOf(image: seq<byte>): byte
    requires PatternDataOffset <= |image|
  {
    image[SongLengthOffset]
  }

  function PositionsOf(image: seq<byte>): (ps: seq<byte>)
    requires PatternDataOffset <= |image|
    ensures |ps| == PositionTableSize
  {
    image[PositionsOffset..PositionsOffset + PositionTableSize]
  }

  /** `num_patterns`: one more than the largest used position, computed in a
      uint8_t, so a position of 255 makes it wrap to 0. */
  function PatternCount(image: seq<byte>): (n: byte)
    requires PatternDataOffset <= |image|
    requires SongLengthOf(image) <= PositionTableSize
    ensures n == 0 <==> exists i :: 0 <= i < SongLengthOf(image) && PositionsOf(image)[i] == 0xFF
    ensures n != 0 ==> forall i :: 0 <= i < SongLengthOf(image) ==> PositionsOf(image)[i] < n
    ensures n > 1 ==> exists i :: 0 <= i < SongLengthOf(image) && PositionsOf(image)[i] == n - 1
  {
    (MaxPosition(PositionsOf(image), SongLengthOf(image)) + 1) % 0x100
  }

  /** Every used position names a loaded pattern, unless one of them is 255. */
  lemma PatternIndicesInRange(image: seq<byte>)
    requires PatternDataOffset <= |image|
    requires SongLengthOf(image) <= PositionTableSize
    requires forall i :: 0 <= i < SongLengthOf(image) ==> PositionsOf(image)[i] < 0xFF
    ensures PatternCount(image) == MaxPosition(PositionsOf(image), SongLengthOf(image)) + 1
    ensures forall i :: 0 <= i < SongLengthOf(image) ==> PositionsOf(image)[i] < PatternCount(image)
  {
  }

  /** A used position of 255 makes the uint8_t pattern count wrap to 0:
      no pattern is read at all. */
  lemma PatternCountWraps(image: seq<byte>, i: nat)
    requires PatternDataOffset <= |image|
    requires SongLengthOf(image) <= PositionTableSize
    requires i < SongLengthOf(image) && PositionsOf(image)[i] == 0xFF
    ensures PatternCount(image) == 0
  {
  }

  // ---------------------------------------------------------------------
  // Pattern cells

  /** A 4-byte cell: 12-bit period from the low nibble of b0 and b1, sample
      number from the high nibbles of b0 and b2, effect from the low nibble
      of b2, parameter b3. */
  function DecodeCell(b0: byte, b1: byte, b2: byte, b3: byte): (n: Note)
    ensures n.period < 0x1000 && n.effect < 0x10
  {
    Note((b0 / 0x10) * 0x10 + b2 / 0x10, (b0 % 0x10) * 0x100 + b1, b2 % 0x10, b3)
  }

  /** The bytes a cell is stored as. */
  function EncodeCell(n: Note): (s: seq<byte>)
    requires n.period < 0x1000 && n.effect < 0x10
    ensures |s| == BytesPerNote
  {
    [(n.sample / 0x10) * 0x10 + n.period / 0x100,
     n.period % 0x100,
     (n.sample % 0x10) * 0x10 + n.effect,
     n.param]
  }

  lemma DecodeEncodeCell(n: Note)
    requires n.period < 0x1000 && n.effect < 0x10
    ensures var s := EncodeCell(n); DecodeCell(s[0], s[1], s[2], s[3]) == n
  {
  }

  lemma EncodeDecodeCell(b0: byte, b1: byte, b2: byte, b3: byte)
    ensures EncodeCell(DecodeCell(b0, b1, b2, b3)) == [b0, b1, b2, b3]
  {
  }

  /** Cell number `k` of the pattern block. */
  function CellAt(image: seq<byte>, k: nat): Note
    requires PatternDataOffset + BytesPerNote * (k + 1) <= |image|
  {
    var off := PatternDataOffset + BytesPerNote * k;
    DecodeCell(image[off], image[off + 1], image[off + 2], image[off + 3])
  }

  /** Index of the cell for `channel` of `row` of `pattern`. */
  function CellIndex(pattern: nat, row: nat, channel: nat): nat {
    (pattern * RowsPerPattern + row) * NumChannels + channel
  }

  // ---------------------------------------------------------------------
  // Sample payloads

  /** The 31 descriptors of the header, in order. */
  function Descriptors(image: seq<byte>): (ds: seq<Sample>)
    requires PatternDataOffset <= |image|
    ensures |ds| == MaxSamples
    ensures forall j :: 0 <= j < MaxSamples ==> ds[j] == DescriptorAt(image, j)
  {
    seq(MaxSamples, j requires 0 <= j < MaxSamples => DescriptorAt(image, j))
  }

  /** Total length of the samples before `i`; zero-length samples add
      nothing, so this is the total of the earlier non-empty samples. */
  function LengthsBefore(samples: seq<Sample>, i: nat): nat
    requires i <= |samples|
  {
    if i == 0 then 0 else LengthsBefore(samples, i - 1) + samples[i - 1].length
  }

  /** Sample `s` with its payload pointer set: `offset` when it has a
      payload, the null pointer when its length is zero. */
  function Placed(s: Sample, offset: nat): (p: Sample)
    ensures p.(data := None) == s.(data := None)
    ensures p.data.Some? <==> s.length > 0
  {
    s.(data := if s.length > 0 then Some(offset) else None)
  }

  /** Where the payload of sample `i` starts, given the pattern count. */
  function PayloadOffset(image: seq<byte>, numPatterns: nat, i: nat): nat
    requires i <= MaxSamples && PatternDataOffset <= |image|
  {
    PatternDataOffset + numPatterns * PatternBytes + LengthsBefore(Descriptors(image), i)
  }

  // ---------------------------------------------------------------------
  // The loader

  /** `load_mod_embedded`. The source never consults the image length, so
      the header and the pattern block being present is a precondition, as
      is a song length within the 128-entry position table that the pattern
      count scan indexes. `allocOk` is the outcome of the pattern-table
      allocation; when it fails the loader reports failure. */
  method LoadMod(image: seq<byte>, allocOk: bool) returns (r: Option<ModFile>)
    requires PatternDataOffset <= |image|
    requires SongLengthOf(image) <= PositionTableSize
    requires PatternDataOffset + PatternCount(image) * PatternBytes <= |image|
    ensures r.Some? <==> allocOk
    ensures r.Some? ==> r.value.image == image
    ensures r.Some? ==> |r.value.samples| == MaxSamples
    ensures r.Some? ==> forall i {:trigger r.value.samples[i]} :: 0 <= i < MaxSamples ==>
      r.value.samples[i] == Placed(DescriptorAt(image, i), PayloadOffset(image, r.value.numPatterns, i))
    ensures r.Some? ==> r.value.songLength == SongLengthOf(image)
    ensures r.Some? ==> r.value.positions == PositionsOf(image)
    ensures r.Some? ==> r.value.numPatterns == PatternCount(image)
    ensures r.Some? ==> |r.value.patterns| == r.value.numPatterns * CellsPerPattern
    ensures r.Some? ==> forall k :: 0 <= k < |r.value.patterns| ==> r.value.patterns[k] == CellAt(image, k)
  {
    var samples, ptr := ReadDescriptors(image);

    var songLength := image[ptr];
    ptr := ptr + 1;
    ptr := ptr + 1;  // unused byte
    var positions := image[ptr..ptr + PositionTableSize];
    ptr := ptr + PositionTableSize;
    ptr := ptr + TagSize;  // format tag
    assert ptr == PatternDataOffset;
    assert songLength == SongLengthOf(image) && positions == PositionsOf(image);

    var numPatterns := CountPatterns(positions, songLength);

    if !allocOk {
      return None;
    }

    var patterns;
    patterns, ptr := ReadPatterns(image, ptr, numPatterns);
    assert ptr == PatternDataOffset + numPatterns * PatternBytes;
    samples, ptr := PlacePayloads(ptr, samples);
    PayloadsPlaced(image, numPatterns, samples);
    r := Some(ModFile(samples, songLength, positions, numPatterns, patterns, image));
  }

  /** The descriptors placed after a pattern block of `numPatterns`
      patterns are the samples `LoadMod` promises. */
  lemma PayloadsPlaced(image: seq<byte>, numPatterns: nat, samples: seq<Sample>)
    requires PatternDataOffset <= |image| && |samples| == MaxSamples
    requires forall j {:trigger samples[j]} :: 0 <= j < MaxSamples ==>
      samples[j] == Placed(Descriptors(image)[j],
                           PatternDataOffset + numPatterns * PatternBytes + LengthsBefore(Descriptors(image), j))
    ensures forall i {:trigger samples[i]} :: 0 <= i < MaxSamples ==>
      samples[i] == Placed(DescriptorAt(image, i), PayloadOffset(image, numPatterns, i))
  {
    forall i | 0 <= i < MaxSamples
      ensures samples[i] == Placed(DescriptorAt(image, i), PayloadOffset(image, numPatterns, i))
    {
      assert samples[i] == Placed(Descriptors(image)[i],
                                  PatternDataOffset + numPatterns * PatternBytes + LengthsBefore(Descriptors(image), i));
    }
  }

  /** The descriptor loop of `load_mod_embedded`: from byte 20, each of the
      31 descriptors is read field by field (its name skipped), and the
      cursor ends on the song length byte. */
  method ReadDescriptors(image: seq<byte>) returns (samples: seq<Sample>, ptr: nat)
    requires PatternDataOffset <= |image|
    ensures samples == Descriptors(image)
    ensures ptr == SongLengthOffset
  {
    ptr := TitleSize;
    samples := [];
    var i := 0;
    while i < MaxSamples
      invariant 0 <= i <= MaxSamples
      invariant |samples| == i
      invariant ptr == DescriptorOffset(i)
      invariant forall j :: 0 <= j < i ==> samples[j] == DescriptorAt(image, j)
    {
      ptr := ptr + NameSize;
      var length := WordToBytes(ReadBigEndian16(image, ptr));
      ptr := ptr + 2;
      var finetune := image[ptr];
      ptr := ptr + 1;
      var volume := image[ptr];
      ptr := ptr + 1;
      var repeatPoint := WordToBytes(ReadBigEndian16(image, ptr));
      ptr := ptr + 2;
      var repeatLength := WordToBytes(ReadBigEndian16(image, ptr));
      ptr := ptr + 2;
      samples := samples + [Sample(length, finetune, volume, repeatPoint, repeatLength, None)];
      i := i + 1;
    }
  }

  /** The pattern-count loop of `load_mod_embedded`: the largest of the
      first `songLength` positions, plus one in a uint8_t. */
  method CountPatterns(positions: seq<byte>, songLength: byte) returns (numPatterns: byte)
    requires songLength <= |positions|
    ensures numPatterns == (MaxPosition(positions, songLength) + 1) % 0x100
  {
    var maxPattern: byte := 0;
    var i := 0;
    while i < songLength
      invariant 0 <= i <= songLength
      invariant maxPattern == MaxPosition(positions, i)
    {
      if positions[i] > maxPattern {
        maxPattern := positions[i];
      }
      i := i + 1;
    }
    numPatterns := (maxPattern + 1) % 0x100;
  }

  /** The pattern-reading loops of `load_mod_embedded`: starting at the
      cursor, `numPatterns` patterns of 64 rows of 4 cells are decoded in
      pattern, row, channel order, and the cursor ends exactly one pattern
      block (1024 bytes per pattern) further on. */
  method ReadPatterns(image: seq<byte>, start: nat, numPatterns: nat) returns (patterns: seq<Note>, ptr: nat)
    requires start == PatternDataOffset
    requires PatternDataOffset + numPatterns * PatternBytes <= |image|
    ensures ptr == start + numPatterns * PatternBytes
    ensures |patterns| == numPatterns * CellsPerPattern
    ensures forall k :: 0 <= k < |patterns| ==> patterns[k] == CellAt(image, k)
  {
    ptr := start;
    patterns := [];
    var p := 0;
    while p < numPatterns
      invariant 0 <= p <= numPatterns
      invariant |patterns| == p * CellsPerPattern
      invariant ptr == PatternDataOffset + BytesPerNote * |patterns|
      invariant forall k :: 0 <= k < |patterns| ==> patterns[k] == CellAt(image, k)
    {
      var row := 0;
      while row < RowsPerPattern
        invariant 0 <= row <= RowsPerPattern
        invariant |patterns| == CellIndex(p, row, 0)
        invariant ptr == PatternDataOffset + BytesPerNote * |patterns|
        invariant forall k :: 0 <= k < |patterns| ==> patterns[k] == CellAt(image, k)
      {
        var c := 0;
        while c < NumChannels
          invariant 0 <= c <= NumChannels
          invariant |patterns| == CellIndex(p, row, c)
          invariant ptr == PatternDataOffset + BytesPerNote * |patterns|
          invariant forall k :: 0 <= k < |patterns| ==> patterns[k] == CellAt(image, k)
        {
          assert |patterns| + 1 <= p * CellsPerPattern + CellsPerPattern <= numPatterns * CellsPerPattern;
          var b0 := image[ptr];
          var b1 := image[ptr + 1];
          var b2 := image[ptr + 2];
          var b3 := image[ptr + 3];
          ptr := ptr + BytesPerNote;
          patterns := patterns + [DecodeCell(b0, b1, b2, b3)];
          c := c + 1;
        }
        row := row + 1;
      }
      p := p + 1;
    }
  }

  /** The last loop of `load_mod_embedded`: from the cursor at the end of
      the pattern block, each sample of non-zero length gets the cursor as
      its payload pointer and moves it on by its length; a zero-length
      sample gets the null pointer and moves nothing. */
  method PlacePayloads(start: nat, described: seq<Sample>) returns (samples: seq<Sample>, ptr: nat)
    requires |described| == MaxSamples
    ensures ptr == start + LengthsBefore(described, MaxSamples)
    ensures |samples| == MaxSamples
    ensures forall j {:trigger samples[j]} :: 0 <= j < MaxSamples ==> samples[j] == Placed(described[j], start + LengthsBefore(described, j))
  {
    samples := [];
    ptr := start;
    var i := 0;
    while i < MaxSamples
      invariant 0 <= i <= MaxSamples
      invariant |samples| == i
      invariant ptr == start + LengthsBefore(described, i)
      invariant forall j {:trigger samples[j]} :: 0 <= j < i ==> samples[j] == Placed(described[j], start + LengthsBefore(described, j))
    {
      var s := described[i];
      if s.length > 0 {
        samples := samples + [s.(data := Some(ptr))];
        ptr := ptr + s.length;
      } else {
        samples := samples + [s.(data := None)];
      }
      i := i + 1;
    }
  }
}
