# miditoqwerty-rs in Dafny

A model of the core of miditoqwerty-rs. The program turns MIDI events from a keyboard
into presses and releases of computer keys, so that virtual-piano games can be played
from a real piano. It models:

- **Key symbol resolution** (`Keycodes`): the shift table and the name-to-code table,
  and `Key::new` as a total function `KeyNew` returning a `Result`.
- **The three output methods**, which turn note-on, note-off and sustain into key
  events:
  - `Generic`: 61 notes from C2 to C7, a press counter per key code, and sustain
    latched on space.
  - `Pv` (Piano Visualizations): a velocity bucket selected under left alt, and notes
    outside C2..C7 played under left ctrl.
  - `PianoRooms`: base-12 bursts of keypad taps.
- **The shared counter and sustain rules** (`KeyState`), together with an "operating
  system view": the set of codes held down after a sequence of events.
- **The macOS key sink** (`MacKeyboard`): the `(shift, alt, ctrl)` tracker, the flags
  stamped on each posted event, and `write_many`.
- **The MIDI callback's routing and the release-all batch** (`Dispatch`).

The main properties proved:

- Generic's counter stays a faithful record of the keys the OS holds down. If, before a
  press, release or sustain call, the keys down are exactly the counted keys (plus space
  while sustain is latched), then they are again after the events that call emits.
- For PV the same step holds, except for the velocity key: its tap can lift a held note.
- `reset` drops the record without releasing anything: afterwards nothing is counted,
  whatever keys are still down. A fresh method starts with nothing counted.
- The MIDI routing hands a note-on, a note-off and controller 64 to the selected method
  and emits exactly that method's events; any other event emits nothing.
- Every modifier pressed in a batch is released in the same batch, and the brackets nest.
  So on macOS the sink's modifier flags start clear and end clear.
- A Piano Rooms burst decodes back to the `(note, velocity)` or `(143, value)` pair it
  carries, and it leaves no key held.
- Velocity selection picks the first closest bucket.
- Key resolution fails exactly for names found in neither table.

Modelling choices:

- The platform (`NonMac` or `Mac`) is a parameter, and so is the note number of C2
  (`c2`).
- Posting a CGEvent is modelled as an append to the sink's `posted` log.
- Both counter arrays are Dafny `array<u8>` fields of 127 entries that the methods update
  in place.
- A note press emits `Release(k), Press(k)` whatever the counter holds. A note release
  emits `Release(k)` when the count was at most 1, including when it was already 0.
- Where the source does not build as written:
  - `reset` takes no argument here, as in the `InputMethod` trait. `generic.rs` and
    `piano_rooms.rs` declare `reset(&mut self, data: &str)`.
  - The constructors in `main.rs` omit `space_down`. They are modelled as
    `Inner::new()`, with `space_down` false.

## Model

| member | source | states |
|---|---|---|
| Keycodes.Shifts | src/keycodes/mod.rs:6-17 | the shift table: each upper-case letter and shifted digit symbol maps to the key typed with shift |
| Keycodes.Keycodes | src/keycodes/mod.rs:78-165 | the name-to-code table, with the Windows and the macOS code of each name |
| Keycodes.KeyNew | src/keycodes/mod.rs:46-59 | `Key::new`: the shift table first, then the code of the base name, `shifted` when the shift table had the name; the panic as an error |
| Keycodes.GetCode | src/keycodes/mod.rs:67-76 | absent exactly for names missing from the code table; otherwise the Windows or the macOS code of the entry |
| Keycodes.ShiftBasesAreBaseChars | src/keycodes/mod.rs:6-17 | every shift-table target is a single digit or lower-case letter |
| Keycodes.ShiftedCharsInShifts | src/keycodes/mod.rs:6-17 | a one-character name is in the shift table exactly when it is upper-case or one of `!@#$%^&*()` |
| Keycodes.BaseCharsInKeycodes | src/keycodes/mod.rs:78-165 | every digit and lower-case letter has a code-table entry |
| Keycodes.ShiftsTotal | src/keycodes/mod.rs:6-17 | every shift-table target has its own code-table entry and is not itself shifted |
| Keycodes.CodesFitU16 | src/keycodes/mod.rs:57 | every table code is at most 0xe2, so the `try_into().unwrap()` to u16 never panics |
| Keycodes.ShiftedNameResolvesToBase | src/keycodes/mod.rs:46-59 | a shifted name resolves to its base's code with `shifted` set |
| Keycodes.PlainNameResolvesToOwnEntry | src/keycodes/mod.rs:46-59 | a name outside the shift table resolves to its own entry, unshifted |
| Keycodes.UnknownNameFails | src/keycodes/mod.rs:55-58 | resolution fails if and only if the name is in neither table, and then only with the invalid-key error |
| Keycodes.ShiftPairsShareCode | src/keycodes/mod.rs:48-57 | a shifted symbol and its base resolve to the same code; only the symbol is shifted |
| Keycodes.NamedKey | src/keycodes/mod.rs:46-59 | `Key::new` of a plain table name succeeds, unshifted, with the table's code |
| Keycodes.ShiftKeyCode | src/keycodes/mod.rs:120 | `shift` has code 42, or 0x38 on macOS |
| Keycodes.AltKeyCode | src/keycodes/mod.rs:134 | `leftalt` has code 56, or 0xe2 on macOS |
| Keycodes.CtrlKeyCode | src/keycodes/mod.rs:107 | `leftctrl` has code 29, or 0x3b on macOS |
| Keycodes.SpaceKeyCode | src/keycodes/mod.rs:135 | `space` has code 57, or 0x31 on macOS |
| Keycodes.NoteKeyIsNotSpecial | src/keycodes/mod.rs:78-165 | a note key is none of shift, left alt, left ctrl and space |
| Keycodes.BaseCharCodeRanges | src/keycodes/mod.rs:78-165 | digit and letter codes lie in the Windows ranges 2-11, 16-25, 30-38 and 44-50, and are at most 0x2e on macOS |
| Keycodes.BaseCharCode | src/keycodes/mod.rs:46-59 | a digit or letter resolves, unshifted, to a note key |
| Keycodes.ShiftedCharResolves | src/keycodes/mod.rs:46-59 | a one-character shift-table name resolves, shifted, to a note key |
| Keycodes.ShiftedCharKey | src/keycodes/mod.rs:46-59 | every upper-case letter and shifted digit symbol resolves, shifted, to a note key |
| Keycodes.TableCharKey | src/keycodes/mod.rs:46-59 | every layout character resolves to a note key, shifted exactly when it is a shifted character |
| Keycodes.KeyEvent.Code | src/keycodes/mod.rs:31-38 | a press and a release both give the wrapped key's code |
| KeyState.AfterPress | src/output_methods/generic.rs:51 | one more press at the code, every other counter unchanged, and the code now counted |
| KeyState.AfterRelease | src/output_methods/generic.rs:73-76 | one fewer press at the code, saturating at 0, every other counter unchanged; the code uncounted when its count was at most 1 |
| KeyState.PressKeyEvents | src/output_methods/generic.rs:45-52 | the release of the key, then its press, inside a shift press and release when the key is shifted |
| KeyState.ReleaseEvents | src/output_methods/generic.rs:78-84 | no event while the old count is above 1, otherwise the release of the key |
| KeyState.SustainEvents | src/output_methods/generic.rs:95-103 | a space press when the value reaches 64 unlatched, a space release when it drops below 64 latched, otherwise nothing |
| KeyState.DownAfterAppend | src/main.rs:106 | replaying two batches one after the other equals replaying their concatenation |
| KeyState.UnnestAppend | src/output_methods/pv.rs:84-107 | the bracket matcher over a concatenation continues from where the first part left off |
| KeyState.NoModifiersBalanced | src/output_methods/pv.rs:42-46 | events touching no modifier are balanced |
| KeyState.BalancedAppend | src/output_methods/pv.rs:88-104 | a concatenation of balanced batches is balanced |
| KeyState.BracketBalanced | src/output_methods/pv.rs:91-104 | wrapping a balanced batch in a modifier press and release keeps it balanced |
| KeyState.BracketDownAfter | src/output_methods/pv.rs:91-104 | a modifier bracket leaves its modifier up and the inner events applied with it down |
| KeyState.PressKeyPushes | src/output_methods/pv.rs:91-104 | the pushes one by one make the modifier-bracketed press events of the key |
| KeyState.SaturatingRelease | src/output_methods/generic.rs:73-84 | count ≥ 2: no event, count minus 1; count 1: a release, count 0; count 0: a release, and the table unchanged |
| KeyState.PressKeyDownAfter | src/output_methods/generic.rs:45-52 | a note press leaves its key down and shift as it was (up) |
| KeyState.PressKeyBalanced | src/output_methods/generic.rs:49-52 | the shift bracket of a note press is balanced |
| KeyState.TapDownAfter | src/output_methods/pv.rs:38-48 | the tap of a velocity key under alt leaves that key up and alt up |
| KeyState.TapThenPressDownAfter | src/output_methods/pv.rs:88-104 | after a velocity tap and a note press, the bucket key is up, the note key down and every modifier up |
| KeyState.BalancedWellNested | src/output_methods/pv.rs:84-107 | a balanced batch nests properly from an empty stack |
| KeyState.PressKeepsTracking | src/output_methods/generic.rs:45-52 | the keys down after a note press are exactly the recorded keys once the counter is incremented |
| KeyState.ReleaseKeepsTracking | src/output_methods/generic.rs:73-84 | the keys down after a note release are exactly the recorded keys once the counter is decremented (saturating) |
| KeyState.SustainKeepsTracking | src/output_methods/generic.rs:92-104 | the keys down after a sustain change are exactly the recorded ones, with the latch set by value ≥ 64 |
| KeyState.SustainEdgeTriggered | src/output_methods/generic.rs:95-103 | space is pressed if and only if the latch goes up, released if and only if it goes down, otherwise nothing |
| KeyState.HeldPedalPressesOnce | src/output_methods/generic.rs:95-97 | a run of values ≥ 64 presses space once in all, and only if it was not latched |
| KeyState.RaisedPedalReleasesOnce | src/output_methods/generic.rs:98-100 | a run of values < 64 releases space once in all, and only if it was latched |
| Generic.RegularNotesAreTableChars | src/output_methods/generic.rs:1 | the layout has 61 characters, each a plain or a shifted table character |
| Generic.StrForNote | src/output_methods/generic.rs:8-16 | a name exists exactly for C2..C7: the one character at offset note − C2 |
| Generic.NoteKey | src/output_methods/generic.rs:45-47 | an in-window note's name resolves to a note key, shifted exactly for the shifted characters |
| Generic.SharedKeyOverlap | src/output_methods/generic.rs:73-84 | C2 and C#2 share a key; with both held, the first release emits nothing, the second releases the key, and the counter is restored |
| Generic.ReleaseKeepsNoSpecialCounted | src/output_methods/generic.rs:73-76 | decrementing a counter never counts a modifier or space code |
| Generic.GenericInner.constructor | src/output_methods/generic.rs:24-26 | all 127 counters zero, sustain not latched, nothing recorded as held |
| Generic.GenericInner.PressNote | src/output_methods/generic.rs:34-57 | outside C2..C7 nothing; otherwise release, optional shift press, press, optional shift release, and that key's counter +1; the recorded keys match what the OS holds |
| Generic.GenericInner.ReleaseNote | src/output_methods/generic.rs:59-85 | outside C2..C7 nothing; otherwise a saturating decrement, with a release only when the old count was at most 1; the recorded keys match what the OS holds |
| Generic.GenericInner.Reset | src/output_methods/generic.rs:87-90 | all counters zero and sustain unlatched, in the same array |
| Generic.GenericInner.ProcessSustain | src/output_methods/generic.rs:92-104 | space pressed on crossing up to ≥ 64, released on crossing down, latch = value ≥ 64; the recorded keys match what the OS holds |
| Pv.MinByKey | src/output_methods/pv.rs:24-28 | None exactly for an empty list; otherwise the index of the FIRST entry at minimal distance |
| Pv.VelocityTables | src/output_methods/pv.rs:12-22 | 32 buckets at 4, 8, …, 124 and 127, each keyed by a digit or a letter |
| Pv.VelocityIndex | src/output_methods/pv.rs:24-28 | the chosen bucket is closest to the velocity, and no earlier bucket is as close |
| Pv.StringForVelocity | src/output_methods/pv.rs:11-33 | the key of the chosen bucket, always a plain table character |
| Pv.VelocityBucketNear | src/output_methods/pv.rs:13-28 | a velocity of 2..127 is at most 2 from its bucket; 0 and 1 are at most 4 and 3 from it |
| Pv.VelocityOf66 | src/output_methods/pv.rs:24-28 | velocity 66 ties between 64 and 68 and goes to bucket 15, key "y" |
| Pv.VelocityExamples | src/output_methods/pv.rs:24-32 | velocity 0 gets "1"; velocity 127 gets bucket 31, "c" |
| Pv.VelocityKey | src/output_methods/pv.rs:40-45 | the velocity string resolves to an unshifted note key |
| Pv.EventsForVelocity | src/output_methods/pv.rs:35-51 | alt press, then release, press and release of the bucket key, then alt release |
| Pv.VelocitySelection | src/output_methods/pv.rs:35-51 | the selection is balanced over the modifiers and leaves the bucket key up and everything else as found |
| Pv.StrForNote | src/output_methods/pv.rs:53-65 | present exactly for B1−14..C#7+11: the low layout counting down from B1, Generic's layout on C2..C7, the high layout counting up from C#7 |
| Pv.OuterLayoutsArePlain | src/output_methods/pv.rs:2-3 | the low and high layouts hold only digits and lower-case letters |
| Pv.NoteKey | src/output_methods/pv.rs:93-94 | a note in range resolves to a note key, unshifted outside C2..C7 |
| Pv.PressNoteEvents | src/output_methods/pv.rs:84-107 | the velocity selection, then the note's press events, inside a ctrl press and release outside C2..C7 |
| Pv.PressBatchWellNested | src/output_methods/pv.rs:84-107 | every alt, ctrl and shift pressed in a press batch is released in it, properly nested |
| Pv.ModifiersUntracked | src/output_methods/pv.rs:91-104 | with no modifier counted, none of shift, alt and ctrl is recorded as held, and shift differs from ctrl |
| Pv.PressTracking | src/output_methods/pv.rs:84-107 | after a press batch the keys down are the recorded keys (counter +1), minus the velocity key unless it is the note key |
| Pv.PressKeepsNoSpecialCounted | src/output_methods/pv.rs:101 | incrementing a note key's counter never counts a modifier or space code |
| Pv.VelocityKeyIsNoteKey | src/output_methods/pv.rs:1-12 | bucket 15's key "y" is also the key of note C2+26 |
| Pv.VelocityTapCanLiftHeldNote | src/output_methods/pv.rs:42-46 | when a held note uses the bucket key, the batch leaves that key up although the counter records it |
| Pv.PvInner.constructor | src/output_methods/pv.rs:73-75 | all 127 counters zero, sustain not latched, nothing recorded as held |
| Pv.PvInner.PressNote | src/output_methods/pv.rs:84-107 | the velocity selection, then the note's press events (under ctrl outside C2..C7), and that key's counter +1; the keys down are the recorded ones minus the velocity key |
| Pv.PvInner.ReleaseNote | src/output_methods/pv.rs:109-135 | a saturating decrement, with a release only when the old count was at most 1; the recorded keys match what the OS holds |
| Pv.PvInner.Reset | src/output_methods/pv.rs:137-140 | all counters zero and sustain unlatched, in the same array |
| Pv.PvInner.ProcessSustain | src/output_methods/pv.rs:142-154 | space pressed on crossing up to ≥ 64, released on crossing down, latch = value ≥ 64; the recorded keys match what the OS holds |
| PianoRooms.KeypadEntries | src/output_methods/piano_rooms.rs:6-8 | the twelve digit names have the code-table entries `KeypadCodes` lists |
| PianoRooms.KeypadNotShifted | src/output_methods/piano_rooms.rs:6-8 | no digit name is in the shift table |
| PianoRooms.KeypadNames | src/output_methods/piano_rooms.rs:6-8 | each digit name has the listed code for the platform |
| PianoRooms.DelimiterName | src/output_methods/piano_rooms.rs:25-28 | `kpasterisk` has code 55, or 0x43 on macOS |
| PianoRooms.KeypadCodesDistinct | src/output_methods/piano_rooms.rs:6-8 | the twelve digit codes are pairwise distinct and differ from the delimiter's |
| PianoRooms.DigitKeyResolves | src/output_methods/piano_rooms.rs:32-34 | `Key::new` of digit d's name is the plain key with d's keypad code |
| PianoRooms.DelimiterKeyResolves | src/output_methods/piano_rooms.rs:25-28 | `Key::new("kpasterisk")` is the plain delimiter key |
| PianoRooms.NewDigitKey | src/output_methods/piano_rooms.rs:32-34 | the resolved key of digit d |
| PianoRooms.NewDelimiterKey | src/output_methods/piano_rooms.rs:26-27 | the resolved delimiter key |
| PianoRooms.Taps | src/output_methods/piano_rooms.rs:31-35 | two events per digit |
| PianoRooms.TapsAppend | src/output_methods/piano_rooms.rs:31-35 | one more digit adds its tap at the end |
| PianoRooms.FrameDigits | src/output_methods/piano_rooms.rs:30 | the two digits of the first value, then the two of the second |
| PianoRooms.Burst | src/output_methods/piano_rooms.rs:25-35 | the delimiter tap, then one tap per digit key, in order |
| PianoRooms.Digits | src/output_methods/piano_rooms.rs:30 | two base-12 digits whose value is x; the high digit is a digit exactly when x < 144 |
| PianoRooms.FrameDigitsValid | src/output_methods/piano_rooms.rs:30-32 | all four digits index the key list if and only if both values are below 144 |
| PianoRooms.IndexOf | src/output_methods/piano_rooms.rs:32 | None exactly when absent; otherwise the first position holding the value |
| PianoRooms.DigitOfDigitKey | src/output_methods/piano_rooms.rs:6-8 | a digit key's code reads back as its digit |
| PianoRooms.DecodeTapsCons | src/output_methods/piano_rooms.rs:31-35 | a digit tap in front of decodable taps decodes to that digit in front |
| PianoRooms.DecodeTapsInverse | src/output_methods/piano_rooms.rs:31-35 | decoding the taps of digits gives back the digits |
| PianoRooms.BurstRoundTrip | src/output_methods/piano_rooms.rs:25-35 | decoding a burst gives back its digits |
| PianoRooms.FrameRoundTrip | src/output_methods/piano_rooms.rs:25-35 | for values below 144, decoding the burst gives back the pair |
| PianoRooms.FrameOfDigits | src/output_methods/piano_rooms.rs:30 | the four digits give back the pair |
| PianoRooms.TapsLeaveNothingHeld | src/output_methods/piano_rooms.rs:31-35 | digit taps leave no key down that was not down before |
| PianoRooms.BurstLeavesNothingHeld | src/output_methods/piano_rooms.rs:25-35 | a burst leaves no key down that was not down before |
| PianoRooms.TapsPrefixStep | src/output_methods/piano_rooms.rs:31-35 | the taps of one more prefix digit extend the taps of the shorter prefix |
| PianoRooms.Transmit | src/output_methods/piano_rooms.rs:25-35 | the delimiter tap, then one tap per digit in order |
| PianoRooms.PressNote | src/output_methods/piano_rooms.rs:17-38 | a 10-event burst of the digits of (note, velocity) that decodes back to that pair and leaves nothing held |
| PianoRooms.ReleaseNote | src/output_methods/piano_rooms.rs:40-56 | a 10-event burst that decodes back to (note, 0) and leaves nothing held |
| PianoRooms.ProcessSustain | src/output_methods/piano_rooms.rs:60-77 | a 10-event burst that decodes back to (143, value) and leaves nothing held |
| PianoRooms.SustainFrameIsNotANote | src/output_methods/piano_rooms.rs:68-69 | no sustain burst equals any note burst |
| PianoRooms.MiddleCExample | src/output_methods/piano_rooms.rs:30 | press_note(60, 100) sends the digits 5, 0, 8, 4 after the delimiter |
| MacKeyboard.ModifierCodes | src/keyboard_provider/macos.rs:22-60 | the sink compares with the macOS codes of shift, left alt and left ctrl |
| MacKeyboard.StepModifiers | src/keyboard_provider/macos.rs:22-60 | a shift, left alt or left ctrl event sets that member of the tuple (press true, release false) |
| MacKeyboard.ModifiersAfter | src/keyboard_provider/macos.rs:92-96 | the tuple after the events one by one |
| MacKeyboard.PostAll | src/keyboard_provider/macos.rs:92-96 | one posting per event, each with the tuple after that event |
| MacKeyboard.FlagsOf | src/keyboard_provider/macos.rs:76-85 | the shift, alternate and control flags are set exactly for the true members of the tuple |
| MacKeyboard.PostedFor | src/keyboard_provider/macos.rs:62-87 | the event's code, down exactly for a press, with the flags of the tuple after the event |
| MacKeyboard.StepChangesOnlyOwnFlag | src/keyboard_provider/macos.rs:22-60 | a modifier event sets its own flag (press true, release false) and leaves the others; any other event leaves all three |
| MacKeyboard.ModifiersAfterAppend | src/keyboard_provider/macos.rs:92-96 | the tracker over a concatenation continues from the first part's result |
| MacKeyboard.PostAllInOrder | src/keyboard_provider/macos.rs:92-96 | one posting per event, in order, each stamped with the tracker state after it |
| MacKeyboard.ModifiersFollowKeys | src/keyboard_provider/macos.rs:22-60 | started from the modifiers that are down, the tracker ends at the modifiers the events leave down |
| MacKeyboard.VirtualKeyboard.constructor | src/keyboard_provider/macos.rs:14-16 | all three modifiers false, nothing posted |
| MacKeyboard.VirtualKeyboard.WriteCode | src/keyboard_provider/macos.rs:18-90 | the tracker steps by the event, and one event is posted with the new flags |
| MacKeyboard.VirtualKeyboard.WriteMany | src/keyboard_provider/macos.rs:92-96 | the tracker is the fold over the events, and the postings are appended in order |
| Dispatch.PressOutput | src/output_methods/mod.rs:14 | what each method's `press_note` emits: Generic's key press inside C2..C7 and nothing outside, PV's press batch, Piano Rooms' (note, velocity) burst |
| Dispatch.ReleaseOutput | src/output_methods/mod.rs:15 | what each method's `release_note` emits from its counters: the key release unless others still count on it (Generic: inside C2..C7 only), or Piano Rooms' (note, 0) burst |
| Dispatch.SustainOutput | src/output_methods/mod.rs:17 | what each method's `process_sustain` emits from its latch: space on a crossing of 64, or Piano Rooms' (143, value) burst |
| Dispatch.PressCounters | src/output_methods/generic.rs:34-51 | the counters after `press_note`: one more press on the note's key (Generic: inside C2..C7 only; same for PV at src/output_methods/pv.rs:101); Piano Rooms keeps none |
| Dispatch.ReleaseCounters | src/output_methods/generic.rs:59-75 | the counters after `release_note`: one press fewer on the note's key, never below zero (Generic: inside C2..C7 only); Piano Rooms keeps none |
| Dispatch.SustainLatch | src/output_methods/generic.rs:92-100 | the latch after `process_sustain`: set exactly when the value is 64 or more; Piano Rooms has no latch |
| Dispatch.PressNote | src/main.rs:89-91 | exactly the selected method's `press_note` events; the counters become `PressCounters` of the old ones and the latch is unchanged; the recorded keys match the OS view (PV: within it; Piano Rooms: nothing left held) |
| Dispatch.ReleaseNote | src/main.rs:92-94 | exactly the selected method's `release_note` events from its counters before the call; the counters become `ReleaseCounters` of the old ones and the latch is unchanged; the same tracking guarantee |
| Dispatch.ProcessSustain | src/main.rs:95-97 | exactly the selected method's `process_sustain` events from its latch before the call; the counters are unchanged and the latch becomes `SustainLatch`; the same tracking guarantee |
| Dispatch.Translate | src/main.rs:88-105 | a note-on gives the method's press events and new counters, a note-off its release events and counters, controller 64 its sustain events and latch; any other event emits nothing and changes nothing, so a whole MIDI stream can be followed call by call |
| Dispatch.ResetMethod | src/output_methods/mod.rs:16 | after reset, Generic and PV keep the same counter table, every counter is zero, the latch is clear and nothing is held; nothing is released |
| Dispatch.TrackedHasNoModifiers | src/keyboard_provider/macos.rs:22-60 | on macOS, with no modifier counted, the recorded keys hold no modifier |
| Dispatch.Handle | src/main.rs:88-106 | the routed events and the new counters and latch, as in `Translate`; the events go to the sink in order; an ignored event posts nothing; on macOS, modifier flags clear before stay clear after |
| Dispatch.ReleaseAll | src/main.rs:123 | one release per name, in the order given |
| Dispatch.ReleaseAllLiftsCodes | src/main.rs:123-124 | after the batch, exactly the released codes are up and nothing else changed |
| Dispatch.ReleaseAllLiftsEveryKey | src/main.rs:123-124 | releasing every name of the code table lifts every key that any name resolves to, shifted symbols included |

## Left out

- `get_name` and every `println!`: text output only.
- The GUI, the threads, the settings lock, the `output` toggle that drops every MIDI message while it is off (`src/main.rs:82-84`), MIDI port enumeration and parsing (`midir`, `midi_event`), and the reconnection loop of `main.rs`: I/O and concurrency. A MIDI event enters as a `MidiEvent` value.
- The velocity of a note-off is passed to `Dispatch.ReleaseNote` and ignored there, as `main.rs:92-93` ignores it.
- The Linux and Windows key sinks (`linux.rs`, `windows.rs`): they forward codes to the OS with no logic to model. Only the macOS sink's tracker is modelled.
- `CGEventSource`, `CGEvent::new_keyboard_event`, `set_flags` and `post`: foreign calls. They are modelled as one `Posted(code, isDown, flags)` entry appended to `posted`. The `Result` of `write_code` is always `Ok` and is not modelled.
- `process_sostenuto` in `piano_rooms.rs:79-83`: it is not part of the `InputMethod` trait, nothing calls it, and it always returns no events.
- The phf tables become `match` functions (`Shifts`, `Keycodes`). Their iteration order for the release-all batch is unknown, so `ReleaseAll` takes the order as its `names` parameter.
- Which platform the program is built for (`cfg(target_os)`) is the `Platform` parameter. `Note::C2` is the parameter `c2`.
- Generic.GenericInner.PressNote: requires the counter below 255. The source's `+= 1` on a `u8` panics in a debug build and wraps to 0 in a release build.
- Pv.PvInner.PressNote: requires the counter below 255, for the same reason.
- Pv.PvInner.PressNote: requires the note to be in the range of the three layouts. Outside it, the table lookup's `unwrap()` in `str_for_note` panics.
- Pv.PvInner.ReleaseNote: also requires the note in range. The `is_none()` branch in `pv.rs:115-118` is dead code, since `str_for_note` either returns `Some` or panics.
- Pv.StrForNote: the `as i8` casts and `abs()` in `pv.rs:57` and `pv.rs:60` are written as plain distances from B1 and C#7. Every note number is below 128, so the casts never wrap, and the distance is never negative on the branch where it is used.
- PianoRooms.PressNote: requires velocity below 144, because at 144 and above `PIANO_ROOMS_KEYS.get(...).expect(...)` panics.
- PianoRooms.ProcessSustain: requires value below 144, for the same reason.
- PianoRooms.NewDigitKey: the source calls `Key::new(key)` twice per digit, once for the press and once for the release. The model resolves the key once and uses it for both, since resolution is a pure function of the name.
- Dispatch.Translate: for PV it promises only that the keys the OS holds after a batch are among the recorded keys, not equality. The velocity tap can lift a held note's key (`Pv.VelocityTapCanLiftHeldNote`); the exact difference is in the contract of `Pv.PvInner.PressNote`.
- Dispatch.Handle: the "modifier flags stay clear" guarantee is stated for a method that maps keys for macOS. With the other platform's codes, the macOS sink would compare against codes of a different table.
- The source as written does not build:
  - `generic.rs:87` and `piano_rooms.rs:58` declare `reset(&mut self, data: &str)` against the trait's `reset(&mut self)`.
  - `main.rs:50` and `main.rs:53` build `Inner` without `space_down`.
  - The model follows the trait and `Inner::new()`.
