# Tanmatsu musical keyboard: tracker player, ring buffer and sound slots in Dafny

This project models the integer core of the Tanmatsu musical-keyboard demo
and proves properties of that model:

- **The MOD loader** (`ModFormat`). It reads a 4-channel ProTracker "M.K."
  module image:
  - the 31 sample descriptors, whose big-endian word fields are doubled into
    `uint16_t` byte counts;
  - the song length and the 128-entry position table;
  - the pattern count, computed in a `uint8_t`;
  - the pattern block, whose 4-byte cells are decoded into notes;
  - the sample payload offsets, laid out back to back after the pattern block.
- **The tracker engine** (`Tracker`):
  - `process_tick` mixes the four channels into clamped int16 samples while it
    advances 16.16 fixed-point read positions, loops samples and stops samples;
  - `process_row` applies one pattern row to the channels;
  - `calculate_tick_samples` converts a tempo into a tick length.
- **The playback loop** (`Sequencer`). One iteration of `modplayer_task` is
  given both as a pure step over a `PlayerState` and as a `Player` class whose
  `Step` method is proved equal to it. On tick 0 the row is applied and the
  pattern-break and set-speed effects are scanned. Then one tick is mixed and
  written to the ring. Then the tick, row and position counters advance.
- **The single-producer, single-consumer ring** (`RingBuffer`). The producer
  is `write_to_ring_buffer`: it offers every sample twice and drops a value
  when the ring is full, so one slot always stays empty. The consumer is the
  dequeue in `audio_task`. A ghost sequence of unread samples turns the array
  and its two indices into a FIFO queue.
- **The integer side of `audio_task`** (`AudioTask`):
  - each pending trigger claims the first playback slot that is free or
    already holds its sound;
  - each 64-frame period takes up to one ring sample per frame;
  - every playing sound advances one frame per frame until it ends.
- **The keyboard table** (`KeyboardNotes`): the 13 press scancodes, the
  first-match lookup with the release bit masked off, the press and release
  tests, and the ADSR sample counts.

Two computations the source does in floating point are parameters of the
model:

- the period-to-increment conversion, `increment: u16 -> u32`;
- the `MOD_VOLUME_SCALE` multiply, `scale: i16 -> i16`.

The size of the ring, `MOD_BUFFER_SIZE`, is defined in a header outside this
model. It is the length of the ring's array, which must be positive. The
value of the release-modifier bit is also defined outside this model, so it
is a parameter as well.

C fixed-width arithmetic is written out explicitly:

- the `uint16_t` and `uint32_t` wrap-around (`WrapU16`, `WrapU32`);
- the truncating signed division by 64 (`CDiv64`);
- the `int8_t` reading of payload bytes (`Signed8`);
- the saturation to int16 (`Clamp16`).

Files: `ctypes.dfy`, `mod_format.dfy`, `tracker.dfy`, `ring_buffer.dfy`,
`sequencer.dfy`, `audio_task.dfy`, `keyboard_notes.dfy`.

## Model

| member | source | states |
|---|---|---|
| CTypes.WrapU16 | main/modplayer_esp32.c:114 | Storing into a `uint16_t` keeps a value that fits and otherwise reduces it modulo 2^16. |
| CTypes.WrapU32 | main/modplayer_esp32.c:251 | Storing into a `uint32_t` keeps a value that fits and otherwise reduces it modulo 2^32. |
| CTypes.CDiv64 | main/modplayer_esp32.c:248 | C's signed `/ 64` truncates toward zero: the quotient times 64 lies between 0 and the dividend, less than 64 away from it, for both signs. |
| CTypes.Signed8 | main/modplayer_esp32.c:247 | A payload byte read through `int8_t` lies in [-128, 127] and is congruent to the byte modulo 256. |
| CTypes.Clamp16 | main/modplayer_esp32.c:272-275 | The mix is kept exactly when it is in the int16 range, and saturates to 32767 above it and to -32768 below it. |
| ModFormat.ReadBigEndian16 | main/modplayer_esp32.c:89-91 | The word read has the first byte as its high byte and the second as its low byte. |
| ModFormat.ReadBigEndian16Inverts | main/modplayer_esp32.c:89-91 | Reading back the two big-endian bytes of any word gives that word. |
| ModFormat.BigEndian16Inverts | main/modplayer_esp32.c:89-91 | `read_big_endian_16` is the high byte times 256 plus the low byte: re-encoding its result gives back the two bytes read. |
| ModFormat.WordToBytes | main/modplayer_esp32.c:114-123 | A descriptor word doubled into a `uint16_t` is even: twice the word below 0x8000, and twice the word minus 65536 from 0x8000 up. |
| ModFormat.DescriptorAt | main/modplayer_esp32.c:108-125 | Descriptor i sits 30 bytes after descriptor i-1, starting at byte 20. Its length, repeat point and repeat length are the big-endian words at bytes 22, 26 and 28 of it, doubled into `uint16_t` byte counts (so even). Its finetune and volume are bytes 24 and 25. It has no payload pointer yet. |
| ModFormat.Descriptors | main/modplayer_esp32.c:108-125 | The header holds 31 descriptors, the i-th being the one read at byte 20 + 30i. |
| ModFormat.MaxPosition | main/modplayer_esp32.c:137-143 | The pattern-count scan yields a value no smaller than any of the first `song_length` positions, and it is 0 or one of them. |
| ModFormat.PatternCount | main/modplayer_esp32.c:137-144 | The `uint8_t` pattern count is 0 exactly when a used position is 255. Otherwise it exceeds every used position, and when above 1 it is one more than some used position. |
| ModFormat.PatternIndicesInRange | main/modplayer_esp32.c:137-147 | When no used position is 255, the pattern count is the largest used position plus one, and every used position names a loaded pattern. |
| ModFormat.PatternCountWraps | main/modplayer_esp32.c:138-144 | A used position of 255 makes the `uint8_t` pattern count wrap to 0. |
| ModFormat.DecodeCell | main/modplayer_esp32.c:159-171 | A decoded cell has a 12-bit period and a 4-bit effect. |
| ModFormat.DecodeEncodeCell | main/modplayer_esp32.c:159-171 | Decoding the bytes of any note with a 12-bit period and a 4-bit effect gives that note back. |
| ModFormat.EncodeDecodeCell | main/modplayer_esp32.c:159-171 | Every 4-byte cell is recovered from its decoding, so decoding loses no bit. |
| ModFormat.Placed | main/modplayer_esp32.c:178-185 | Placing a payload changes only the data pointer, which is set exactly when the sample's length is nonzero. |
| ModFormat.LoadMod | main/modplayer_esp32.c:100-191 | The load succeeds iff the pattern allocation does. It then holds: the 31 descriptors with payload pointers at the end of the pattern block plus the earlier nonzero lengths; the song length; the position table; the wrapped pattern count; and exactly count*256 cells, each the decoding of its 4 bytes at 1084 + 4k. |
| ModFormat.ReadDescriptors | main/modplayer_esp32.c:101-125 | The descriptor loop reads every descriptor field at its offset and leaves the cursor on the song-length byte (950). |
| ModFormat.CountPatterns | main/modplayer_esp32.c:137-144 | The scan loop computes the largest of the first `song_length` positions plus one, modulo 256. |
| ModFormat.ReadPatterns | main/modplayer_esp32.c:154-175 | The cells are read in pattern, row, channel order from byte 1084, and the cursor ends exactly `num_patterns * 1024` bytes further on. |
| ModFormat.PlacePayloads | main/modplayer_esp32.c:177-185 | Each sample's payload starts at the cursor after the pattern block plus the lengths of the earlier samples. Zero-length samples get no pointer and take no bytes. |
| RingBuffer.NextIndex | main/modplayer_esp32.c:210 | `(pos + 1) % N` is pos + 1, or 0 at the last slot. |
| RingBuffer.Doubled | main/modplayer_esp32.c:207-208 | Each input sample appears twice in a row, at indices 2i and 2i+1, and the output is twice as long. |
| RingBuffer.Scaled | main/modplayer_esp32.c:204-205 | Each sample goes through the volume multiply, in order, one output per input. |
| RingBuffer.OfferedAt | main/modplayer_esp32.c:204-208 | The offered values, the scaled samples each doubled, hold the scaled sample i at 2i and 2i+1. |
| RingBuffer.ModRing.constructor | main/modplayer_esp32.c:417-421 | `modplayer_init` leaves a zeroed ring with both indices 0 and nothing unread. |
| RingBuffer.ModRing.EmptyIffIndicesMeet | main/main.c:101 | The read and write indices are equal exactly when nothing is unread. |
| RingBuffer.ModRing.Offer | main/modplayer_esp32.c:209-220 | A value is stored iff fewer than N-1 samples are unread. Storing it writes only the slot at the old write index, advances that index modulo N to a slot other than the read index, and appends the value to the unread samples. Otherwise nothing changes. |
| RingBuffer.ModRing.OfferTwice | main/modplayer_esp32.c:208-221 | Both copies of a value are stored while there is room, so the unread samples grow by the part of the pair that fits. |
| RingBuffer.ModRing.WriteSamples | main/modplayer_esp32.c:203-223 | The unread samples grow by the longest prefix of the doubled, scaled input that fits in N-1 minus the unread count. The read index is untouched, the write index never becomes equal to it through a write, and only the slots just filled change. |
| RingBuffer.ModRing.Read | main/main.c:101-107 | With unread samples, the oldest is returned and the read index advances by 1 modulo N. Otherwise nothing is consumed. The write index is never changed. Together with WriteSamples this is a FIFO of at most N-1 samples. |
| Tracker.PayloadValue | main/modplayer_esp32.c:244-247 | The payload byte at the integer part of the channel position, read as `int8_t`, lies in [-128, 127]. |
| Tracker.ScaledSample | main/modplayer_esp32.c:248 | `(value * volume) / 64 * 32` is the multiple of 32 whose double is the product rounded toward zero to a multiple of 64, for both signs. |
| Tracker.ScaledSampleVolumes | main/modplayer_esp32.c:247-248 | Volume 64 gives 32 times the payload value, volume 0 gives 0, and the contribution has the sign of the payload value. |
| Tracker.MixChannelContribution | main/modplayer_esp32.c:234-248 | A channel that reads no payload byte contributes 0 and is unchanged. One that does contributes `ScaledSample` of its payload value times its volume. |
| Tracker.MixChannel | main/modplayer_esp32.c:234-266 | A channel with period 0 or no sample contributes 0 and is unchanged. Any contribution is within ±16320. Only the position and the period can change, and the period only to 0. |
| Tracker.MixFrame | main/modplayer_esp32.c:232-269 | The mix of one output sample is bounded by ±16320 per channel and is 0 when no channel sounds. Each channel ends as its own single-channel step, independent of the others. |
| Tracker.MixFrameIsSum | main/modplayer_esp32.c:232-248 | The mix of one output sample is the sum of the four channels' own contributions. |
| Tracker.Tick | main/modplayer_esp32.c:226-277 | One tick produces exactly n int16 samples and four channels. |
| Tracker.MixFitsInt32 | main/modplayer_esp32.c:232-248 | The `int32_t` accumulator never overflows. |
| Tracker.SilentChannelUntouched | main/modplayer_esp32.c:235 | A channel with period 0 or sample 0 is the same after a whole tick. |
| Tracker.QuietTickIsSilent | main/modplayer_esp32.c:231-276 | When no channel sounds, a tick outputs only zeros and changes no channel. |
| Tracker.TickAtRest | main/modplayer_esp32.c:231-276 | Channels that one output sample leaves unchanged with a zero mix stay unchanged for the whole tick, which is all zeros. |
| Tracker.QuietFrameIsSilent | main/modplayer_esp32.c:232-269 | When no channel sounds, one output sample mixes to 0 and leaves every channel as it is. |
| Tracker.LoopingSampleWraps | main/modplayer_esp32.c:254-260 | With repeat length above 2, a position advanced to repeat point + repeat length or beyond jumps back to the repeat point. Otherwise it keeps the advanced position. Either way it stays before the loop end. |
| Tracker.OneShotSampleStops | main/modplayer_esp32.c:261-265 | Without a loop, the channel stops, with period and position 0, exactly when the advanced position reaches the sample length. Otherwise it moves to the advanced position (sample position plus increment, wrapped as a uint32_t), which stays inside the sample. |
| Tracker.MixChannelStep | main/modplayer_esp32.c:234-266 | The channel-loop body computes the same contribution and channel as the single-channel step. |
| Tracker.MixSample | main/modplayer_esp32.c:232-269 | The loop over the four channels returns the 32-bit mix of one output sample and leaves the channels as the frame mix does. |
| Tracker.ProcessTick | main/modplayer_esp32.c:226-277 | The buffer's first n entries are the clamped mixes of the tick, the channels end as the tick leaves them, and the rest of the buffer is untouched. |
| Tracker.CellOf | main/modplayer_esp32.c:281-286 | The cell a row reads for a channel is inside the pattern table, and its sample number indexes the sample table. |
| Tracker.ApplyNote | main/modplayer_esp32.c:288-317 | A nonzero sample selects that sample and its default volume. A nonzero period without portamento (effect 3) restarts the note at position 0 with the period's increment. Set-volume (effect 0xC) with a parameter up to 64 sets the volume, and a larger one is ignored. The effect and parameter are always recorded. |
| Tracker.RowChannels | main/modplayer_esp32.c:280-319 | A row yields four channels. |
| Tracker.ProcessRow | main/modplayer_esp32.c:280-319 | Each channel becomes its old state with its cell of the row applied. |
| Tracker.CalculateTickSamples | main/modplayer_esp32.c:322-326 | For every tempo the set-speed effect can choose (32 to 255), a tick is 216 to 1722 samples. |
| Tracker.TickSamplesRange | main/modplayer_esp32.c:322-326 | Every tempo from 32 to 255 gives 216 to 1722 samples per tick. |
| Tracker.TickSamplesAtTempo | main/modplayer_esp32.c:322-326 | Tempo 125 gives 441 samples per tick and tempo 250 gives 220. |
| Sequencer.ScanEffects | main/modplayer_esp32.c:360-374 | The scan keeps the timing valid. Any pattern break (0xD) forces row 63, and without one the row is kept. Set-speed (0xF) changes the ticks per row only to 1..31 and the tempo only to 32..255. With no break and no nonzero set-speed the timing is unchanged, so parameter 0 is ignored. |
| Sequencer.PatternBreakStopsScan | main/modplayer_esp32.c:361-363 | The first pattern break ends the scan: channels after it have no effect on the timing. |
| Sequencer.FirstBreak | main/modplayer_esp32.c:360-363 | The first channel with a pattern break, or 4 when there is none. |
| Sequencer.LastSpeedSetter | main/modplayer_esp32.c:364-368 | The last channel in the range with set-speed and a parameter from 1 to 31, or -1 when there is none. |
| Sequencer.LastTempoSetter | main/modplayer_esp32.c:369-372 | The last channel in the range with set-speed and a parameter of 32 or more, or -1 when there is none. |
| Sequencer.ScanEffectsSettles | main/modplayer_esp32.c:358-374 | The scan leaves the row at 63 iff a pattern break occurs. The ticks per row is the parameter of the last speed setting before the first break. The tempo is that of the last tempo setting before it, and the tick length is computed from that tempo. With no such setting each value is kept. |
| Sequencer.SamplesToGenerate | main/modplayer_esp32.c:379 | A tick produces the smaller of the tick length and 1024 samples. |
| Sequencer.NextCounters | main/modplayer_esp32.c:384-399 | The tick wraps to 0 exactly at the ticks per row. Wrapping advances the row, the row wraps at 64 and advances the position, and the position wraps to 0 at the song length. All counters stay in range. |
| Sequencer.InitialState | main/modplayer_esp32.c:343-349 | The state before the loop (position, row and tick 0, 5 ticks per row, tempo 125, silent channels) is valid for any module. |
| Sequencer.StepSpec | main/modplayer_esp32.c:355-399 | One loop iteration keeps the player state valid and outputs as many samples as the capped tick length. Off tick 0 the speed and tempo do not change. |
| Sequencer.ScanChannels | main/modplayer_esp32.c:360-374 | The effect-scan loop, with its early break, computes the timing of the effect scan. |
| Sequencer.Player.constructor | main/modplayer_esp32.c:343-349 | The player starts in the initial state. |
| Sequencer.Player.StartRow | main/modplayer_esp32.c:355-375 | On tick 0 the channels become the applied row, and the timing becomes the effect scan of that row. |
| Sequencer.Player.PlayTick | main/modplayer_esp32.c:379-381 | The channels advance by one tick of the capped length. The ring gains the longest prefix of that tick's doubled, scaled samples that fits, and its read index is unchanged. |
| Sequencer.Player.AdvanceCounters | main/modplayer_esp32.c:384-399 | The counters advance as the counter update prescribes. |
| Sequencer.Player.Step | main/modplayer_esp32.c:355-399 | One loop iteration leaves the player in the state of the pure step. The ring gains the part of that step's output that fits, and its read index is untouched. |
| AudioTask.FirstSlot | main/main.c:80-82 | The search returns the lowest slot that is free or holds the sound, or -1 exactly when there is none. |
| AudioTask.Claim | main/main.c:80-90 | A trigger restarts the first claimable slot with the sound, its length and position 0, and changes no other slot. If none is claimable, nothing changes. |
| AudioTask.ClaimKeepsSlotsValid | main/main.c:83-87 | A claim with a nonzero length keeps every playing sound's position inside its sample. |
| AudioTask.DuplicateCopyCanStart | main/main.c:80-82 | A free slot before the slot already playing a sound receives a second copy, so one slot per sound is not guaranteed. |
| AudioTask.ClaimAll | main/main.c:77-93 | With no raised trigger the slots are unchanged. |
| AudioTask.ClaimAllKeepsSlotsValid | main/main.c:77-93 | Handling all triggers keeps every playing position inside its sample, given nonzero sound lengths. |
| AudioTask.AdvanceSlot | main/main.c:124-129 | A stopped sound is unchanged. A playing sound's position rises by 1, and it stays playing iff the new position is below the length. The sound and its length never change, and `active ⇒ position < length` is preserved. |
| AudioTask.AdvanceBy | main/main.c:110-130 | Advancing over frames never changes a slot's sound or length. |
| AudioTask.AdvanceByFrames | main/main.c:110-130 | After f frames a valid playing sound is still playing iff position + f is below its length. While playing it has moved exactly f, and once stopped its position is its length. |
| AudioTask.SoundMixer.constructor | main/main.c:176 | The slots start cleared and no trigger is pending. |
| AudioTask.SoundMixer.ClaimSlot | main/main.c:80-90 | The slot loop with its break claims exactly as the slot-claim function does. |
| AudioTask.SoundMixer.HandleTriggers | main/main.c:77-93 | Every raised trigger claims a slot in trigger order, and every trigger flag ends cleared. |
| AudioTask.SoundMixer.AdvanceSounds | main/main.c:110-130 | Each slot advances by one frame. |
| AudioTask.SoundMixer.MixPeriod | main/main.c:96-130 | A period consumes the oldest min(64, unread) ring samples in order and never moves the write index. Every slot ends 64 frames further on. |
| KeyboardNotes.PressScancodes | main/keyboard_notes.h:37-54 | The table has 13 press scancodes, pairwise distinct. |
| KeyboardNotes.ReleaseScancodes | main/keyboard_notes.h:37-54 | Each release scancode is its press scancode with bit 0x80 set. |
| KeyboardNotes.FindFrom | main/keyboard_notes.h:62-67 | From entry i, the search returns the first matching index, or -1 exactly when no later entry matches. |
| KeyboardNotes.FindNoteByScancode | main/keyboard_notes.h:58-68 | The result is -1 or an index in [0, 13). A nonnegative result names an entry whose press scancode equals the masked scancode. The result is -1 exactly when no entry matches. |
| KeyboardNotes.MatchIsUnique | main/keyboard_notes.h:58-68 | Any entry matching the masked scancode is the one returned. |
| KeyboardNotes.ReleaseBitIgnored | main/keyboard_notes.h:60 | Setting or clearing the release bit does not change the note found. |
| KeyboardNotes.PressAndReleaseFindNote | main/keyboard_notes.h:37-68 | With release bit 0x80, both a note's press code and its release code find that note. |
| KeyboardNotes.IsKeyPress | main/keyboard_notes.h:71-73 | A scancode is a press exactly when clearing the release bit leaves it unchanged. |
| KeyboardNotes.IsKeyRelease | main/keyboard_notes.h:76-78 | A scancode is a release exactly when clearing the release bit changes it, which needs a nonzero release bit. |
| KeyboardNotes.PressIffNotRelease | main/keyboard_notes.h:71-78 | Every scancode is a press iff it is not a release. Setting the release bit makes a release, and clearing it makes a press. |
| KeyboardNotes.MsToSamples | main/keyboard_notes.h:23-25 | A millisecond length converts to the number of 44.1 kHz samples, rounded down. |
| KeyboardNotes.EnvelopeSampleCounts | main/keyboard_notes.h:17-25 | Attack is 220 samples, decay 4410 and release 2205. |

## Left out

- The floating-point conversions are parameters of the model. `period_to_freq` and the float sample increment (main/modplayer_esp32.c:94-97, 301-302) are the function `increment`. The `MOD_VOLUME_SCALE` multiply (main/modplayer_esp32.c:205) is the function `scale`.
- The float side of `audio_task` is not modelled: the 0.1 volume, float accumulation, soft clipping, conversion back to int16 and the output buffer. The model returns the ring samples a period consumes and advances the slots, but computes no output frames.
- The I2S write, the FreeRTOS tasks, `vTaskDelay` and its delay computation, the unused mutex and `volatile` are left out. So is the interleaving of the two tasks on the ring: the ring is modelled as a sequence of whole operations.
- `app_main` is left out: the display, LEDs, input queue and the bouncing-ball animation that raises the triggers. The triggers are the flags as found.
- The title and sample-name copies carry no behaviour and are not kept. Logging and `free_mod_file` are also left out.
- `malloc` is the parameter `allocOk` of `LoadMod`.
- The embedded module image and the bounce-sound table are inputs, not constants.
- The size of the ring is a constructor argument: `MOD_BUFFER_SIZE` is defined in a header that is not part of this model.
- The value of the release-modifier bit comes from a header that is not part of this model, so it is a parameter.
- The note names, frequencies and black-key flags of `note_defs` are left out. No ADSR voice pool exists in this code, and none is modelled.
- ModFormat.LoadMod: the source never looks at the image length. So the header, the pattern block and a song length of at most 128 are preconditions, not error results.
- Tracker.MixChannel: the payload bytes of every placed sample must lie inside the image (`PayloadsInImage`). The source reads them unchecked.
- Tracker.ProcessRow: the row's sample numbers must be at most 31, and its position must name a loaded pattern (`RowReadable`). The source indexes both tables unchecked.
- Sequencer.Player.Step: every row of every position the song can reach must be readable (`Playable`). The loop's termination flag `mod_player_running` is left out; `Step` is one iteration.
- Tracker.MixChannel: `repeat_point << 16` is modelled as repeat point × 65536. In C the shift is done on a promoted `int` and overflows for repeat points of 0x8000 and above, but the stored `uint32_t` value is the same on the target.
- AudioTask.SoundMixer.MixPeriod: the sound samples are not read, because their values only feed the float mix. The in-bounds condition of that read, `active ⇒ position < length`, is the precondition `SlotValid`.
- The sound slots' sample pointers are identities, with NULL as `None`. The pointed-to flash data is not modelled.
