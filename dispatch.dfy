/**
 * The event routing of the MIDI callback: a note-on goes to the output method's
 * `press_note`, a note-off to `release_note`, controller 64 to `process_sustain`, and
 * anything else produces no events; the events are then written to the key sink. Also
 * the "release every key" batch written before reconnecting.
 */
module Dispatch {
  import opened Wrappers
  import opened Keycodes
  import opened KeyState
  import Generic
  import Pv
  import PianoRooms
  import MacKeyboard

  /** The controller number of the sustain pedal. */
  const SUSTAIN_CONTROLLER := 64

  /** The channel events the callback tells apart. */
  datatype MidiEvent =
    | NoteOn(note: Generic.Note, velocity: u8)
    | NoteOff(note: Generic.Note, velocity: u8)
    | Controller(control: u8, value: u8)
    | OtherEvent

  /** The selected output method (the three implementations of the `InputMethod` trait). */
  datatype OutputMethod =
    | GenericMethod(generic: Generic.GenericInner)
    | PvMethod(pv: Pv.PvInner)
    | PianoRoomsMethod(platform: Platform)

  /** The objects an output method may change. */
  function Footprint(m: OutputMethod): set<object>
    reads if m.GenericMethod? then {m.generic} else if m.PvMethod? then {m.pv} else {}
  {
    match m
    case GenericMethod(g) => {g, g.pressedChars}
    case PvMethod(pv) => {pv, pv.pressedChars}
    case PianoRoomsMethod(_) => {}
  }

  /** Whether the event routes to no output-method call at all. */
  predicate Ignored(e: MidiEvent)
  {
    e.OtherEvent? || (e.Controller? && e.control != SUSTAIN_CONTROLLER)
  }

  /**
   * What the called method demands: its state is valid, no counter overflows, a PV note
   * is in the three layouts, a Piano Rooms velocity or sustain value is below 144.
   */
  ghost predicate Ready(m: OutputMethod, e: MidiEvent)
    reads if m.GenericMethod? then {m.generic} else if m.PvMethod? then {m.pv} else {}
    reads Footprint(m)
  {
    match m
    case GenericMethod(g) =>
      g.Valid()
      && (e.NoteOn? && Generic.InWindow(e.note, g.c2) ==>
            g.pressedChars[Generic.NoteKey(e.note, g.c2, g.platform).code] < 255)
    case PvMethod(pv) =>
      pv.Valid()
      && ((e.NoteOn? || e.NoteOff?) ==> Pv.InRange(e.note, pv.c2))
      && (e.NoteOn? ==> pv.pressedChars[Pv.NoteKey(e.note, pv.c2, pv.platform).code] < 255)
    case PianoRoomsMethod(_) =>
      (e.NoteOn? ==> e.velocity < PianoRooms.BASE * PianoRooms.BASE)
      && (e.Controller? && e.control == SUSTAIN_CONTROLLER ==> e.value < PianoRooms.BASE * PianoRooms.BASE)
  }

  /**
   * What every call of an output method keeps: the counter table stays the same array,
   * the state stays valid, and the keys it records as held are what the emitted events
   * leave down (for PV up to the velocity key, see `Pv.VelocityTapCanLiftHeldNote`);
   * Piano Rooms leaves nothing down that was not down before.
   */
  twostate predicate KeepsTrack(m: OutputMethod, events: KeyEvents)
    reads if m.GenericMethod? then {m.generic} else if m.PvMethod? then {m.pv} else {}
    reads Footprint(m)
  {
    match m
    case GenericMethod(g) =>
      g.pressedChars == old(g.pressedChars) && g.Valid() && DownAfter(old(g.Held()), events) == g.Held()
    case PvMethod(pv) =>
      pv.pressedChars == old(pv.pressedChars) && pv.Valid() && DownAfter(old(pv.Held()), events) <= pv.Held()
    case PianoRoomsMethod(_) =>
      forall down: set<int> :: DownAfter(down, events) <= down
  }

  /**
   * The events each method's `press_note` emits: Generic taps the note's key inside
   * C2..C7 and nothing outside; PV selects the velocity, then presses the note; Piano
   * Rooms sends the burst of (note, velocity).
   */
  function PressOutput(m: OutputMethod, note: Generic.Note, velocity: u8): KeyEvents
    requires m.PvMethod? ==> Pv.InRange(note, m.pv.c2)
    requires m.PianoRoomsMethod? ==> velocity < PianoRooms.BASE * PianoRooms.BASE
  {
    match m
    case GenericMethod(g) =>
      if Generic.InWindow(note, g.c2)
      then PressKeyEvents(Generic.NoteKey(note, g.c2, g.platform), ShiftKey(g.platform))
      else []
    case PvMethod(pv) => Pv.PressNoteEvents(note, velocity, pv.c2, pv.platform)
    case PianoRoomsMethod(p) =>
      PianoRooms.FrameDigitsValid(note, velocity as nat);
      PianoRooms.Burst(PianoRooms.FrameDigits(note, velocity as nat), p)
  }

  /**
   * The events each method's `release_note` emits, given its counters before the call:
   * Generic and PV release the note's key unless another held note still counts on it
   * (Generic: only inside C2..C7); Piano Rooms sends the burst of (note, 0).
   */
  function ReleaseOutput(m: OutputMethod, note: Generic.Note): KeyEvents
    reads if m.GenericMethod? then {m.generic} else if m.PvMethod? then {m.pv} else {}
    reads Footprint(m)
    requires m.GenericMethod? ==> m.generic.pressedChars.Length == PRESS_TABLE_SIZE
    requires m.PvMethod? ==> m.pv.pressedChars.Length == PRESS_TABLE_SIZE && Pv.InRange(note, m.pv.c2)
  {
    match m
    case GenericMethod(g) =>
      if Generic.InWindow(note, g.c2) then
        var k := Generic.NoteKey(note, g.c2, g.platform);
        ReleaseEvents(g.pressedChars[k.code], k)
      else []
    case PvMethod(pv) =>
      var k := Pv.NoteKey(note, pv.c2, pv.platform);
      ReleaseEvents(pv.pressedChars[k.code], k)
    case PianoRoomsMethod(p) =>
      PianoRooms.FrameDigitsValid(note, 0);
      PianoRooms.Burst(PianoRooms.FrameDigits(note, 0), p)
  }

  /**
   * The events each method's `process_sustain` emits, given its latch before the call:
   * Generic and PV press or release space on a crossing of 64; Piano Rooms sends the
   * burst of (143, value).
   */
  function SustainOutput(m: OutputMethod, value: u8): KeyEvents
    reads if m.GenericMethod? then {m.generic} else if m.PvMethod? then {m.pv} else {}
    requires m.PianoRoomsMethod? ==> value < PianoRooms.BASE * PianoRooms.BASE
  {
    match m
    case GenericMethod(g) => SustainEvents(g.spaceDown, value, SpaceKey(g.platform))
    case PvMethod(pv) => SustainEvents(pv.spaceDown, value, SpaceKey(pv.platform))
    case PianoRoomsMethod(p) =>
      PianoRooms.FrameDigitsValid(PianoRooms.SUSTAIN_CONTROL, value as nat);
      PianoRooms.Burst(PianoRooms.FrameDigits(PianoRooms.SUSTAIN_CONTROL, value as nat), p)
  }

  /** The press counters of the selected method; Piano Rooms keeps none. */
  ghost function Counters(m: OutputMethod): seq<u8>
    reads if m.GenericMethod? then {m.generic} else if m.PvMethod? then {m.pv} else {}
    reads Footprint(m)
  {
    match m
    case GenericMethod(g) => g.pressedChars[..]
    case PvMethod(pv) => pv.pressedChars[..]
    case PianoRoomsMethod(_) => []
  }

  /** The sustain latch of the selected method; Piano Rooms keeps none. */
  ghost function Latch(m: OutputMethod): bool
    reads if m.GenericMethod? then {m.generic} else if m.PvMethod? then {m.pv} else {}
  {
    match m
    case GenericMethod(g) => g.spaceDown
    case PvMethod(pv) => pv.spaceDown
    case PianoRoomsMethod(_) => false
  }

  /**
   * The counters after `press_note` from `counts`: one more press on the note's key
   * (Generic: only inside C2..C7); Piano Rooms has none to change.
   */
  function PressCounters(m: OutputMethod, note: Generic.Note, counts: seq<u8>): seq<u8>
    requires m.GenericMethod? ==>
      (|counts| == PRESS_TABLE_SIZE
       && (Generic.InWindow(note, m.generic.c2) ==>
             counts[Generic.NoteKey(note, m.generic.c2, m.generic.platform).code] < 255))
    requires m.PvMethod? ==>
      (|counts| == PRESS_TABLE_SIZE && Pv.InRange(note, m.pv.c2)
       && counts[Pv.NoteKey(note, m.pv.c2, m.pv.platform).code] < 255)
  {
    match m
    case GenericMethod(g) =>
      if Generic.InWindow(note, g.c2)
      then AfterPress(counts, Generic.NoteKey(note, g.c2, g.platform).code)
      else counts
    case PvMethod(pv) => AfterPress(counts, Pv.NoteKey(note, pv.c2, pv.platform).code)
    case PianoRoomsMethod(_) => counts
  }

  /**
   * The counters after `release_note` from `counts`: one press fewer on the note's key,
   * saturating at zero (Generic: only inside C2..C7); Piano Rooms has none to change.
   */
  function ReleaseCounters(m: OutputMethod, note: Generic.Note, counts: seq<u8>): seq<u8>
    requires m.GenericMethod? ==> |counts| == PRESS_TABLE_SIZE
    requires m.PvMethod? ==> |counts| == PRESS_TABLE_SIZE && Pv.InRange(note, m.pv.c2)
  {
    match m
    case GenericMethod(g) =>
      if Generic.InWindow(note, g.c2)
      then AfterRelease(counts, Generic.NoteKey(note, g.c2, g.platform).code)
      else counts
    case PvMethod(pv) => AfterRelease(counts, Pv.NoteKey(note, pv.c2, pv.platform).code)
    case PianoRoomsMethod(_) => counts
  }

  /** The latch after `process_sustain`: set exactly from 64 up; Piano Rooms latches nothing. */
  function SustainLatch(m: OutputMethod, value: u8): bool
  {
    !m.PianoRoomsMethod? && value >= SUSTAIN_THRESHOLD
  }

  /** `press_note` on the selected method. */
  method PressNote(m: OutputMethod, note: Generic.Note, velocity: u8) returns (events: KeyEvents)
    requires Ready(m, NoteOn(note, velocity))
    modifies Footprint(m)
    ensures events == PressOutput(m, note, velocity)
    ensures Counters(m) == PressCounters(m, note, old(Counters(m))) && Latch(m) == old(Latch(m))
    ensures KeepsTrack(m, events)
  {
    match m
    case GenericMethod(g) => events := g.PressNote(note, velocity);
    case PvMethod(pv) => events := pv.PressNote(note, velocity);
    case PianoRoomsMethod(p) => events := PianoRooms.PressNote(note, velocity, p);
  }

  /** `release_note` on the selected method. */
  method ReleaseNote(m: OutputMethod, note: Generic.Note, velocity: u8) returns (events: KeyEvents)
    requires Ready(m, NoteOff(note, velocity))
    modifies Footprint(m)
    ensures events == old(ReleaseOutput(m, note))
    ensures Counters(m) == ReleaseCounters(m, note, old(Counters(m))) && Latch(m) == old(Latch(m))
    ensures KeepsTrack(m, events)
  {
    match m
    case GenericMethod(g) => events := g.ReleaseNote(note);
    case PvMethod(pv) => events := pv.ReleaseNote(note);
    case PianoRoomsMethod(p) => events := PianoRooms.ReleaseNote(note, p);
  }

  /** `process_sustain` on the selected method. */
  method ProcessSustain(m: OutputMethod, value: u8) returns (events: KeyEvents)
    requires Ready(m, Controller(SUSTAIN_CONTROLLER, value))
    modifies Footprint(m)
    ensures events == old(SustainOutput(m, value))
    ensures Counters(m) == old(Counters(m)) && Latch(m) == SustainLatch(m, value)
    ensures KeepsTrack(m, events)
  {
    match m
    case GenericMethod(g) => events := g.ProcessSustain(value);
    case PvMethod(pv) => events := pv.ProcessSustain(value);
    case PianoRoomsMethod(p) => events := PianoRooms.ProcessSustain(value, p);
  }

  /**
   * The `match` on the event type: a note-on presses, a note-off releases, controller 64
   * drives the sustain, and an ignored event emits nothing and changes nothing.
   */
  method Translate(m: OutputMethod, e: MidiEvent) returns (events: KeyEvents)
    requires Ready(m, e)
    modifies Footprint(m)
    ensures e.NoteOn? ==> events == PressOutput(m, e.note, e.velocity)
    ensures e.NoteOff? ==> events == old(ReleaseOutput(m, e.note))
    ensures e.Controller? && e.control == SUSTAIN_CONTROLLER ==> events == old(SustainOutput(m, e.value))
    ensures e.NoteOn? ==>
      Counters(m) == PressCounters(m, e.note, old(Counters(m))) && Latch(m) == old(Latch(m))
    ensures e.NoteOff? ==>
      Counters(m) == ReleaseCounters(m, e.note, old(Counters(m))) && Latch(m) == old(Latch(m))
    ensures e.Controller? && e.control == SUSTAIN_CONTROLLER ==>
      Counters(m) == old(Counters(m)) && Latch(m) == SustainLatch(m, e.value)
    ensures KeepsTrack(m, events)
    ensures Ignored(e) ==> events == [] && unchanged(Footprint(m))
  {
    match e
    case NoteOn(note, velocity) =>
      events := PressNote(m, note, velocity);
    case NoteOff(note, velocity) =>
      events := ReleaseNote(m, note, velocity);
    case Controller(control, value) =>
      if control == SUSTAIN_CONTROLLER {
        events := ProcessSustain(m, value);
      } else {
        events := [];
      }
    case OtherEvent =>
      events := [];
  }

  /** The reset of the selected method; Piano Rooms has nothing to reset. */
  method ResetMethod(m: OutputMethod)
    requires m.GenericMethod? ==> m.generic.Valid()
    requires m.PvMethod? ==> m.pv.Valid()
    modifies Footprint(m)
    ensures m.GenericMethod? ==>
      (m.generic.pressedChars == old(m.generic.pressedChars)
       && m.generic.Valid() && m.generic.Held() == {})
    ensures m.PvMethod? ==>
      (m.pv.pressedChars == old(m.pv.pressedChars) && m.pv.Valid() && m.pv.Held() == {})
    ensures Counters(m) == (if m.PianoRoomsMethod? then [] else seq(PRESS_TABLE_SIZE, _ => 0))
      && !Latch(m)
  {
    match m
    case GenericMethod(g) => g.Reset();
    case PvMethod(pv) => pv.Reset();
    case PianoRoomsMethod(_) =>
  }

  /** The platform the selected method maps keys for. */
  function PlatformOf(m: OutputMethod): Platform
  {
    match m
    case GenericMethod(g) => g.platform
    case PvMethod(pv) => pv.platform
    case PianoRoomsMethod(p) => p
  }

  /** The keys the selected method believes it holds down; Piano Rooms holds none. */
  ghost function HeldOf(m: OutputMethod): set<int>
    reads if m.GenericMethod? then {m.generic} else if m.PvMethod? then {m.pv} else {}
    reads Footprint(m)
  {
    match m
    case GenericMethod(g) => g.Held()
    case PvMethod(pv) => pv.Held()
    case PianoRoomsMethod(_) => {}
  }

  /** On macOS no shift, alt or ctrl is among the keys an output method tracks as held. */
  lemma TrackedHasNoModifiers(counts: seq<u8>, spaceDown: bool)
    requires Generic.NoSpecialCounted(counts, Mac)
    ensures MacKeyboard.ModifiersOf(Tracked(counts, spaceDown, SpecialCodes(Mac)[3]))
      == MacKeyboard.NO_MODIFIERS
  {
    var special := SpecialCodes(Mac);
    assert MacKeyboard.ShiftCode() == special[0] && MacKeyboard.AltCode() == special[1]
      && MacKeyboard.CtrlCode() == special[2];
  }

  /**
   * The whole callback on macOS: translate the event and write the batch to the sink.
   * When the method maps keys for macOS, a sink that started with no modifier flags set
   * ends with none set: every shift, alt or ctrl press a batch makes it also releases.
   */
  method Handle(m: OutputMethod, e: MidiEvent, keeb: MacKeyboard.VirtualKeyboard) returns (events: KeyEvents)
    requires Ready(m, e)
    modifies Footprint(m), keeb
    ensures e.NoteOn? ==> events == PressOutput(m, e.note, e.velocity)
    ensures e.NoteOff? ==> events == old(ReleaseOutput(m, e.note))
    ensures e.Controller? && e.control == SUSTAIN_CONTROLLER ==> events == old(SustainOutput(m, e.value))
    ensures e.NoteOn? ==>
      Counters(m) == PressCounters(m, e.note, old(Counters(m))) && Latch(m) == old(Latch(m))
    ensures e.NoteOff? ==>
      Counters(m) == ReleaseCounters(m, e.note, old(Counters(m))) && Latch(m) == old(Latch(m))
    ensures e.Controller? && e.control == SUSTAIN_CONTROLLER ==>
      Counters(m) == old(Counters(m)) && Latch(m) == SustainLatch(m, e.value)
    ensures keeb.modifiers == MacKeyboard.ModifiersAfter(old(keeb.modifiers), events)
    ensures keeb.posted == old(keeb.posted) + MacKeyboard.PostAll(old(keeb.modifiers), events)
    ensures Ignored(e) ==> events == [] && keeb.posted == old(keeb.posted)
    ensures PlatformOf(m) == Mac && old(keeb.modifiers) == MacKeyboard.NO_MODIFIERS ==>
      keeb.modifiers == MacKeyboard.NO_MODIFIERS
  {
    ghost var before := HeldOf(m);
    ghost var blank := old(keeb.modifiers) == MacKeyboard.NO_MODIFIERS;
    ghost var counts0 := if m.GenericMethod? then m.generic.pressedChars[..]
      else if m.PvMethod? then m.pv.pressedChars[..] else [];
    ghost var space0 := if m.GenericMethod? then m.generic.spaceDown
      else if m.PvMethod? then m.pv.spaceDown else false;
    events := Translate(m, e);
    keeb.WriteMany(events);
    if PlatformOf(m) == Mac && blank {
      TrackedHasNoModifiers(counts0, space0);
      assert MacKeyboard.ModifiersOf(before) == MacKeyboard.NO_MODIFIERS;
      MacKeyboard.ModifiersFollowKeys(before, events);
      var after := HeldOf(m);
      if m.GenericMethod? {
        TrackedHasNoModifiers(m.generic.pressedChars[..], m.generic.spaceDown);
      } else if m.PvMethod? {
        TrackedHasNoModifiers(m.pv.pressedChars[..], m.pv.spaceDown);
      }
      assert DownAfter(before, events) <= after;
      assert MacKeyboard.ModifiersOf(after) == MacKeyboard.NO_MODIFIERS;
    }
  }

  // ---------------------------------------------------------------------------
  // Releasing every key.
  // ---------------------------------------------------------------------------

  /** One release per name, in the order given (the table's iteration order). */
  function ReleaseAll(names: seq<string>, p: Platform): (es: KeyEvents)
    requires forall i | 0 <= i < |names| :: KeyNew(names[i], p).Success?
    ensures |es| == |names|
    ensures forall i | 0 <= i < |names| :: es[i] == Release(KeyNew(names[i], p).value)
    decreases |names|
  {
    if names == [] then [] else [Release(KeyNew(names[0], p).value)] + ReleaseAll(names[1..], p)
  }

  /** The codes of the names. */
  function CodesOf(names: seq<string>, p: Platform): set<int>
    requires forall i | 0 <= i < |names| :: KeyNew(names[i], p).Success?
  {
    set i | 0 <= i < |names| :: KeyNew(names[i], p).value.code as int
  }

  /** After the release batch, exactly the released codes are up and nothing else changed. */
  lemma {:induction false} ReleaseAllLiftsCodes(down: set<int>, names: seq<string>, p: Platform)
    requires forall i | 0 <= i < |names| :: KeyNew(names[i], p).Success?
    ensures DownAfter(down, ReleaseAll(names, p)) == down - CodesOf(names, p)
    decreases |names|
  {
    if names != [] {
      var k := KeyNew(names[0], p).value;
      var es := ReleaseAll(names, p);
      assert es[1..] == ReleaseAll(names[1..], p);
      ReleaseAllLiftsCodes(down - {k.code as int}, names[1..], p);
      assert CodesOf(names, p) == {k.code as int} + CodesOf(names[1..], p) by {
        forall c ensures c in CodesOf(names, p) <==> c in {k.code as int} + CodesOf(names[1..], p) {
          if c in CodesOf(names, p) {
            var i :| 0 <= i < |names| && KeyNew(names[i], p).value.code as int == c;
            if i > 0 {
              assert names[1..][i - 1] == names[i];
            }
          }
          if c in CodesOf(names[1..], p) {
            var i :| 0 <= i < |names[1..]| && KeyNew(names[1..][i], p).value.code as int == c;
            assert names[i + 1] == names[1..][i];
          }
        }
      }
    }
  }

  /**
   * Releasing every name of the code table leaves no key up that any name resolves to,
   * shifted symbols included, since they share their base key's code.
   */
  lemma ReleaseAllLiftsEveryKey(down: set<int>, names: seq<string>, p: Platform, s: string)
    requires forall i | 0 <= i < |names| :: KeyNew(names[i], p).Success?
    requires forall n: string :: Keycodes.Keycodes(n).Some? ==> n in names
    requires KeyNew(s, p).Success?
    ensures KeyNew(s, p).value.code as int !in DownAfter(down, ReleaseAll(names, p))
  {
    ReleaseAllLiftsCodes(down, names, p);
    UnknownNameFails(s, p);
    var base := if Shifts(s).Some? then Shifts(s).value else s;
    if Shifts(s).Some? {
      ShiftPairsShareCode(s, p);
      ShiftsTotal(s);
    }
    assert base in names;
    var i :| 0 <= i < |names| && names[i] == base;
    assert KeyNew(names[i], p).value.code == KeyNew(s, p).value.code;
  }
}
