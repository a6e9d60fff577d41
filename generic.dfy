/**
 * The "Generic" output method: the 61 notes C2..C7 map one-to-one onto the characters of
 * the virtual-piano layout; a note press taps its key (inside a shift bracket for the
 * upper-case and symbol keys), a press counter per key code stops a note release from
 * lifting a key that another held note shares, and the sustain pedal latches space.
 */
module Generic {
  import opened Wrappers
  import opened Keycodes
  import opened KeyState

  /** A MIDI note number. */
  type Note = n: int | 0 <= n < 128

  /** The virtual-piano keys of C2..C7, lowest first (61 characters). */
  const REGULAR_VP_NOTES: string :=
    "1!2@34$5%6^7" + "8*9(0qQwWeEr" + "tTyYuiIoOpPa" + "sSdDfgGhHjJk" + "lLzZxcCvVbBn" + "m"

  /** C7 is five octaves above C2. */
  const WINDOW_SPAN := 60

  /** C2 <= note <= C7, with `c2` the number of C2. */
  predicate InWindow(note: int, c2: int)
  {
    c2 <= note <= c2 + WINDOW_SPAN
  }

  /** Every character of the layout is a plain key or a shifted one of the key tables. */
  lemma RegularNotesAreTableChars()
    ensures |REGULAR_VP_NOTES| == WINDOW_SPAN + 1
    ensures forall i | 0 <= i < |REGULAR_VP_NOTES| ::
      IsBaseChar(REGULAR_VP_NOTES[i]) || IsShiftedChar(REGULAR_VP_NOTES[i])
  {
  }

  /** The one-character key name of a note, absent outside the window. */
  function StrForNote(note: int, c2: int): (r: Option<string>)
    ensures r.Some? <==> InWindow(note, c2)
    ensures r.Some? ==> |r.value| == 1 && r.value[0] == REGULAR_VP_NOTES[note - c2]
  {
    RegularNotesAreTableChars();
    if InWindow(note, c2) then Some([REGULAR_VP_NOTES[note - c2]]) else None
  }

  /** The key that plays an in-window note: it resolves, and it is a note key. */
  function NoteKey(note: int, c2: int, p: Platform): (k: Key)
    requires InWindow(note, c2)
    ensures KeyNew(StrForNote(note, c2).value, p) == Success(k)
    ensures k.shifted <==> IsShiftedChar(REGULAR_VP_NOTES[note - c2])
    ensures IsNoteKey(k, p)
  {
    RegularNotesAreTableChars();
    var c := REGULAR_VP_NOTES[note - c2];
    TableCharKey(c, p);
    KeyNew([c], p).value
  }

  /**
   * The keys of C2 ("1") and C#2 ("!") share one code, so they share one counter: after
   * both are pressed, the first release emits nothing, the second releases the key, and
   * the counter is back where it started.
   */
  lemma SharedKeyOverlap(counts: seq<u8>, c2: int, p: Platform)
    requires |counts| == PRESS_TABLE_SIZE
    ensures NoteKey(c2, c2, p).code == NoteKey(c2 + 1, c2, p).code
    ensures var k1 := NoteKey(c2, c2, p);
      var k2 := NoteKey(c2 + 1, c2, p);
      counts[k1.code] == 0 ==>
        var pressed := AfterPress(AfterPress(counts, k1.code), k2.code);
        var once := AfterRelease(pressed, k1.code);
        ReleaseEvents(pressed[k1.code], k1) == []
        && ReleaseEvents(once[k2.code], k2) == [Release(k2)]
        && AfterRelease(once, k2.code) == counts
  {
    assert REGULAR_VP_NOTES[0] == '1' && REGULAR_VP_NOTES[1] == '!';
    assert Shifts("!") == Some("1");
    ShiftPairsShareCode("!", p);
  }

  /** No count sits on a shift, alt, ctrl or space code. */
  predicate NoSpecialCounted(counts: seq<u8>, p: Platform)
  {
    forall c | 0 <= c < |counts| && counts[c] > 0 :: c !in SpecialCodes(p)
  }

  /** Uncounting a press never makes a special code counted. */
  lemma ReleaseKeepsNoSpecialCounted(counts: seq<u8>, code: int, p: Platform)
    requires 0 <= code < |counts| && NoSpecialCounted(counts, p)
    ensures NoSpecialCounted(AfterRelease(counts, code), p)
  {
    var r := AfterRelease(counts, code);
    forall c | 0 <= c < |r| && r[c] > 0 ensures c !in SpecialCodes(p) {
      assert counts[c] > 0;
    }
  }

  /** The state of `generic::Inner`. */
  class GenericInner {
    const platform: Platform
    /** The note number of C2. */
    const c2: int
    /** OS key code -> number of held notes on that key. */
    var pressedChars: array<u8>
    /** Whether the sustain pedal has space held down. */
    var spaceDown: bool

    ghost predicate Valid()
      reads this, pressedChars
    {
      pressedChars.Length == PRESS_TABLE_SIZE && NoSpecialCounted(pressedChars[..], platform)
    }

    /** The keys this method believes it holds down. */
    ghost function Held(): set<int>
      reads this, pressedChars
    {
      Tracked(pressedChars[..], spaceDown, SpecialCodes(platform)[3])
    }

    constructor(platform: Platform, c2: int)
      ensures Valid() && fresh(pressedChars)
      ensures this.platform == platform && this.c2 == c2
      ensures pressedChars[..] == seq(PRESS_TABLE_SIZE, _ => 0) && !spaceDown
      ensures Held() == {}
    {
      this.platform := platform;
      this.c2 := c2;
      pressedChars := new u8[PRESS_TABLE_SIZE](_ => 0);
      spaceDown := false;
      new;
      assert Counted(pressedChars[..]) == {};
    }

    method PressNote(note: Note, velocity: u8) returns (events: KeyEvents)
      requires Valid()
      requires InWindow(note, c2) ==> pressedChars[NoteKey(note, c2, platform).code] < 255
      modifies pressedChars
      ensures Valid()
      ensures !InWindow(note, c2) ==> events == [] && pressedChars[..] == old(pressedChars[..])
      ensures InWindow(note, c2) ==>
        var k := NoteKey(note, c2, platform);
        events == PressKeyEvents(k, ShiftKey(platform))
        && pressedChars[..] == AfterPress(old(pressedChars[..]), k.code)
      ensures DownAfter(old(Held()), events) == Held()
    {
      var keyString := StrForNote(note, c2);
      if keyString.None? {
        return [];
      }
      var s := keyString.value;
      ghost var k0 := NoteKey(note, c2, platform);
      ghost var before := pressedChars[..];
      events := [];
      // a defensive release first, so that a key left down is struck again
      events := events + [Release(KeyNew(s, platform).value)];
      var keypress := KeyNew(s, platform).value;
      var shift := ShiftKey(platform);
      ShiftKeyCode(platform);
      SpaceKeyCode(platform);
      if keypress.shifted {
        events := events + [Press(shift)];
      }
      events := events + [Press(keypress)];
      pressedChars[keypress.code] := pressedChars[keypress.code] + 1;
      if keypress.shifted {
        events := events + [Release(shift)];
      }
      AfterPressPointwise(before, k0.code, pressedChars[..]);
      assert events == PressKeyEvents(k0, shift);
      PressKeepsTracking(before, spaceDown, SpecialCodes(platform)[3], k0, shift);
    }

    method ReleaseNote(note: Note) returns (events: KeyEvents)
      requires Valid()
      modifies pressedChars
      ensures Valid()
      ensures !InWindow(note, c2) ==> events == [] && pressedChars[..] == old(pressedChars[..])
      ensures InWindow(note, c2) ==>
        var k := NoteKey(note, c2, platform);
        events == ReleaseEvents(old(pressedChars[k.code]), k)
        && pressedChars[..] == AfterRelease(old(pressedChars[..]), k.code)
      ensures DownAfter(old(Held()), events) == Held()
    {
      var keyString := StrForNote(note, c2);
      if keyString.None? {
        return [];
      }
      var s := keyString.value;
      ghost var before := pressedChars[..];
      ghost var k0 := NoteKey(note, c2, platform);
      var keypress := KeyNew(s, platform).value;
      assert keypress == k0;
      NoteKeyIsNotSpecial(k0, platform);
      var presses := pressedChars[keypress.code];
      if presses != 0 {
        pressedChars[keypress.code] := pressedChars[keypress.code] - 1;
      }
      AfterReleasePointwise(before, k0.code, pressedChars[..]);
      ReleaseKeepsNoSpecialCounted(before, keypress.code, platform);
      SpaceKeyCode(platform);
      ReleaseKeepsTracking(before, spaceDown, SpecialCodes(platform)[3], keypress);
      if presses > 1 {
        // another held note still uses this key
        return [];
      }
      events := [Release(keypress)];
    }

    method Reset()
      requires Valid()
      modifies this, pressedChars
      ensures Valid() && pressedChars == old(pressedChars)
      ensures pressedChars[..] == seq(PRESS_TABLE_SIZE, _ => 0) && !spaceDown
      ensures Held() == {}
    {
      forall i | 0 <= i < pressedChars.Length {
        pressedChars[i] := 0;
      }
      spaceDown := false;
      assert pressedChars[..] == seq(PRESS_TABLE_SIZE, _ => 0);
      assert Counted(pressedChars[..]) == {};
    }

    method ProcessSustain(value: u8) returns (events: KeyEvents)
      requires Valid()
      modifies this
      ensures Valid() && pressedChars == old(pressedChars)
      ensures events == SustainEvents(old(spaceDown), value, SpaceKey(platform))
      ensures spaceDown == (value >= SUSTAIN_THRESHOLD)
      ensures DownAfter(old(Held()), events) == Held()
    {
      SpaceKeyCode(platform);
      SustainKeepsTracking(pressedChars[..], spaceDown, value, SpaceKey(platform));
      if value >= SUSTAIN_THRESHOLD && !spaceDown {
        spaceDown := true;
        events := [Press(SpaceKey(platform))];
      } else if value < SUSTAIN_THRESHOLD && spaceDown {
        spaceDown := false;
        events := [Release(SpaceKey(platform))];
      } else {
        events := [];
      }
    }
  }
}
