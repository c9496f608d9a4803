/** The scancode-to-note table of the musical keyboard: thirteen notes,
    each bound to a press scancode, found by a first-match search after the
    release-modifier bit is masked off. The value of that bit is defined by
    the board support package, outside this model, and is a parameter here. */
module KeyboardNotes {

  const NumNotes := 13

  /** The press scancodes of `note_defs`, in table order: the eight white
      keys on the A-row, then the five black keys on the Q-row. No two notes
      share a press scancode, so at most one entry can match. */
  function PressScancodes(): (t: seq<bv32>)
    ensures |t| == NumNotes
    ensures forall i, j :: 0 <= i < j < |t| ==> t[i] != t[j]
  {
    [0x1E, 0x1F, 0x20, 0x21, 0x22, 0x23, 0x24, 0x25,
     0x10, 0x11, 0x13, 0x14, 0x15]
  }

  /** The release scancodes of `note_defs`: each press scancode with bit
      0x80 added. */
  function ReleaseScancodes(): (t: seq<bv32>)
    ensures |t| == NumNotes
    ensures forall i :: 0 <= i < |t| ==> t[i] == PressScancodes()[i] | 0x80
  {
    [0x9E, 0x9F, 0xA0, 0xA1, 0xA2, 0xA3, 0xA4, 0xA5,
     0x90, 0x91, 0x93, 0x94, 0x95]
  }

  /** The loop of `find_note_by_scancode` from entry `i` on. */
  function FindFrom(code: bv32, i: nat): (r: int)
    requires i <= NumNotes
    decreases NumNotes - i
    ensures r == -1 || i <= r < NumNotes
    ensures r >= 0 ==> PressScancodes()[r] == code && forall j :: i <= j < r ==> PressScancodes()[j] != code
    ensures r == -1 <==> forall j :: i <= j < NumNotes ==> PressScancodes()[j] != code
  {
    if i == NumNotes then -1
    else if PressScancodes()[i] == code then i
    else FindFrom(code, i + 1)
  }

  /** `find_note_by_scancode`: the index of the note whose press scancode
      equals `scancode` with the release bit cleared, or -1 when none does. */
  function FindNoteByScancode(scancode: bv32, releaseModifier: bv32): (r: int)
    ensures r == -1 || 0 <= r < NumNotes
    ensures r >= 0 ==> PressScancodes()[r] == scancode & !releaseModifier
    ensures r == -1 <==> forall j :: 0 <= j < NumNotes ==> PressScancodes()[j] != scancode & !releaseModifier
  {
    FindFrom(scancode & !releaseModifier, 0)
  }

  /** The table has no repeated codes, so a match is the only one. */
  lemma MatchIsUnique(scancode: bv32, releaseModifier: bv32, j: nat)
    requires j < NumNotes && PressScancodes()[j] == scancode & !releaseModifier
    ensures FindNoteByScancode(scancode, releaseModifier) == j
  {
    var r := FindNoteByScancode(scancode, releaseModifier);
    assert r != -1;
  }

  /** Setting or clearing the release bit does not change which note a
      scancode names. */
  lemma ReleaseBitIgnored(scancode: bv32, releaseModifier: bv32)
    ensures FindNoteByScancode(scancode | releaseModifier, releaseModifier) == FindNoteByScancode(scancode, releaseModifier)
    ensures FindNoteByScancode(scancode & !releaseModifier, releaseModifier) == FindNoteByScancode(scancode, releaseModifier)
  {
    assert (scancode | releaseModifier) & !releaseModifier == scancode & !releaseModifier;
    assert (scancode & !releaseModifier) & !releaseModifier == scancode & !releaseModifier;
  }

  /** With the release bit 0x80, a note's press and release scancodes both
      find that note. */
  lemma PressAndReleaseFindNote(i: nat)
    requires i < NumNotes
    ensures FindNoteByScancode(PressScancodes()[i], 0x80) == i
    ensures FindNoteByScancode(ReleaseScancodes()[i], 0x80) == i
  {
    var press := PressScancodes()[i];
    assert press < 0x80;
    assert press & !0x80 == press;
    assert ReleaseScancodes()[i] & !0x80 == press;
    MatchIsUnique(press, 0x80, i);
    MatchIsUnique(ReleaseScancodes()[i], 0x80, i);
  }

  /** `is_key_press`: the release bit is clear. */
  predicate IsKeyPress(scancode: bv32, releaseModifier: bv32): (p: bool)
    ensures p <==> scancode & !releaseModifier == scancode
  {
    scancode & releaseModifier == 0
  }

  /** `is_key_release`: the release bit is set. */
  predicate IsKeyRelease(scancode: bv32, releaseModifier: bv32): (r: bool)
    ensures r ==> releaseModifier != 0
    ensures r <==> scancode & !releaseModifier != scancode
  {
    scancode & releaseModifier != 0
  }

  /** Every scancode is exactly one of a press and a release; adding the
      release bit turns any scancode into a release when the bit is set. */
  lemma PressIffNotRelease(scancode: bv32, releaseModifier: bv32)
    ensures IsKeyPress(scancode, releaseModifier) <==> !IsKeyRelease(scancode, releaseModifier)
    ensures releaseModifier != 0 ==> IsKeyRelease(scancode | releaseModifier, releaseModifier)
    ensures IsKeyPress(scancode & !releaseModifier, releaseModifier)
  {
    if releaseModifier != 0 {
      assert (scancode | releaseModifier) & releaseModifier == releaseModifier;
    }
  }

  /** The output sample rate the envelope lengths are measured at. */
  const EnvelopeSampleRate := 44100
  const AttackMs := 5
  const DecayMs := 100
  const ReleaseMs := 50

  /** The ADSR_*_SAMPLES conversion: a length in milliseconds as a number
      of samples at 44.1 kHz, rounded down as C integer division does. */
  function MsToSamples(ms: nat): (n: nat)
    ensures n * 1000 <= EnvelopeSampleRate * ms < n * 1000 + 1000
  {
    EnvelopeSampleRate * ms / 1000
  }

  /** The attack, decay and release lengths in samples. */
  lemma EnvelopeSampleCounts()
    ensures MsToSamples(AttackMs) == 220
    ensures MsToSamples(DecayMs) == 4410
    ensures MsToSamples(ReleaseMs) == 2205
  {
  }
}
