/**
 * The "Piano Visualizations" output method. Before each note it selects one of 32
 * velocity buckets by tapping the bucket's key under left alt; it reaches the whole
 * 88-key range by holding left ctrl for notes outside C2..C7, which use two extra
 * layouts; otherwise it counts presses and latches sustain exactly as Generic does.
 */
module Pv {
  import opened Wrappers
  import opened Keycodes
  import opened KeyState
  import Generic

  /** The keys below C2, from B1 downwards (15 characters). */
  const LOW_VP_NOTES: string := "trewq0987654" + "321"

  /** The keys above C7, from C#7 upwards (12 characters). */
  const HIGH_VP_NOTES: string := "yuiopasdfghj"

  /** The key of each velocity bucket (32 characters). */
  const VELOCITY_KEYS: string := "1234567890qw" + "ertyuiopasdf" + "ghjklzxc"

  /** The representative velocity of each bucket. */
  const VELOCITY_LIST: seq<int> := [
    4, 8, 12, 16,
    20, 24, 28, 32,
    36, 40, 44, 48,
    52, 56, 60, 64,
    68, 72, 76, 80,
    84, 88, 92, 96,
    100, 104, 108, 112,
    116, 120, 124, 127
  ]

  /**
   * The index `unwrap_or` falls back to when the list is empty: 0 (paired with entry 15's
   * velocity, which is never read). The fallback is dead, since the list has 32 entries.
   */
  const DEFAULT_BUCKET: nat := 0

  /** `(velocity as i32 - v as i32).abs()`. */
  function Distance(v: int, x: int): nat
  {
    if v >= x then v - x else x - v
  }

  /**
   * `list.iter().enumerate().min_by_key(|(_, x)| distance)`: the index of the FIRST entry
   * closest to `v`, and None for an empty list.
   */
  function MinByKey(list: seq<int>, v: int): (r: Option<nat>)
    ensures r.None? <==> list == []
    ensures r.Some? ==> r.value < |list|
    ensures r.Some? ==> forall j | 0 <= j < |list| :: Distance(v, list[r.value]) <= Distance(v, list[j])
    ensures r.Some? ==> forall j | 0 <= j < r.value :: Distance(v, list[j]) > Distance(v, list[r.value])
    decreases |list|
  {
    if list == [] then None
    else
      var last := |list| - 1;
      match MinByKey(list[..last], v)
      case None => Some(0)
      case Some(i) => if Distance(v, list[last]) < Distance(v, list[i]) then Some(last) else Some(i)
  }

  lemma VelocityTables()
    ensures |VELOCITY_LIST| == |VELOCITY_KEYS| == 32
    ensures forall j | 0 <= j < 31 :: VELOCITY_LIST[j] == 4 * (j + 1)
    ensures VELOCITY_LIST[31] == 127
    ensures forall j | 0 <= j < |VELOCITY_KEYS| :: IsBaseChar(VELOCITY_KEYS[j])
  {
  }

  /** The bucket index chosen for a velocity (the empty-list fallback is index 0). */
  function VelocityIndex(velocity: u8): (i: nat)
    ensures i < |VELOCITY_LIST| && i < |VELOCITY_KEYS|
    ensures forall j | 0 <= j < |VELOCITY_LIST| ::
      Distance(velocity, VELOCITY_LIST[i]) <= Distance(velocity, VELOCITY_LIST[j])
    ensures forall j | 0 <= j < i :: Distance(velocity, VELOCITY_LIST[j]) > Distance(velocity, VELOCITY_LIST[i])
  {
    VelocityTables();
    match MinByKey(VELOCITY_LIST, velocity)
    case None => DEFAULT_BUCKET
    case Some(i) => i
  }

  /** `string_for_velocity`: the key of the closest bucket; always a plain table key. */
  function StringForVelocity(velocity: u8): (s: string)
    ensures |s| == 1 && s[0] == VELOCITY_KEYS[VelocityIndex(velocity)]
    ensures IsBaseChar(s[0])
  {
    VelocityTables();
    [VELOCITY_KEYS[VelocityIndex(velocity)]]
  }

  /** Every velocity 2..127 is at most 2 away from its bucket; 0 and 1 are 4 and 3 away. */
  lemma VelocityBucketNear(velocity: u8)
    requires velocity <= 127
    ensures Distance(velocity, VELOCITY_LIST[VelocityIndex(velocity)])
      <= if velocity < 2 then 4 - velocity else 2
  {
    VelocityTables();
    var j := if velocity >= 126 then 31 else if velocity < 2 then 0 else (velocity + 2) / 4 - 1;
    assert Distance(velocity, VELOCITY_LIST[j]) <= if velocity < 2 then 4 - velocity else 2;
  }

  /** Ties go to the lower bucket: velocity 66, as far from 64 as from 68, gets entry 15, key "y". */
  lemma VelocityOf66()
    ensures VelocityIndex(66) == 15 && StringForVelocity(66) == "y"
  {
    VelocityTables();
    var i := VelocityIndex(66);
    assert Distance(66, VELOCITY_LIST[i]) <= Distance(66, VELOCITY_LIST[15]);
    assert i == 15;
  }

  /** The two ends of the range. */
  lemma VelocityExamples()
    ensures StringForVelocity(0) == "1"
    ensures VelocityIndex(127) == 31 && StringForVelocity(127) == "c"
  {
    VelocityTables();
    var z := VelocityIndex(0);
    assert Distance(0, VELOCITY_LIST[z]) <= Distance(0, VELOCITY_LIST[0]);
    assert z == 0;
    var t := VelocityIndex(127);
    assert Distance(127, VELOCITY_LIST[t]) <= Distance(127, VELOCITY_LIST[31]);
    assert t == 31;
  }

  /** The key tapped to select a velocity. */
  function VelocityKey(velocity: u8, p: Platform): (b: Key)
    ensures KeyNew(StringForVelocity(velocity), p) == Success(b)
    ensures !b.shifted && IsNoteKey(b, p)
  {
    var s := StringForVelocity(velocity);
    TableCharKey(s[0], p);
    KeyNew(s, p).value
  }

  /** The codes of shift, left alt and left ctrl. */
  function ModifierCodes(p: Platform): set<int>
  {
    {SpecialCodes(p)[0], SpecialCodes(p)[1], SpecialCodes(p)[2]}
  }

  /** `events_for_velocity`: under left alt, release then tap the bucket key. */
  function EventsForVelocity(velocity: u8, p: Platform): (es: KeyEvents)
    ensures var b := VelocityKey(velocity, p);
      es == Bracket(AltKey(p), true, [Release(b), Press(b), Release(b)])
  {
    var b := VelocityKey(velocity, p);
    [Press(AltKey(p)), Release(b), Press(b), Release(b), Release(AltKey(p))]
  }

  /** A velocity selection leaves every modifier as it found it, and leaves the bucket key up. */
  lemma VelocitySelection(velocity: u8, p: Platform, down: set<int>)
    requires AltKey(p).code !in down
    ensures Balanced(EventsForVelocity(velocity, p), ModifierCodes(p))
    ensures DownAfter(down, EventsForVelocity(velocity, p)) == down - {VelocityKey(velocity, p).code}
  {
    var b := VelocityKey(velocity, p);
    var inner := [Release(b), Press(b), Release(b)];
    AltKeyCode(p);
    NoteKeyIsNotSpecial(b, p);
    NoModifiersBalanced(inner, ModifierCodes(p));
    BracketBalanced(AltKey(p), true, inner, ModifierCodes(p));
    TapDownAfter(down, AltKey(p), b);
  }

  /** Notes B1-14 ..= C#7+11: the range the three layouts cover. */
  predicate InRange(note: int, c2: int)
  {
    c2 - 1 - (|LOW_VP_NOTES| - 1) <= note <= c2 + Generic.WINDOW_SPAN + |HIGH_VP_NOTES|
  }

  /**
   * `pv::str_for_note`: the low layout below C2 (counting down from B1), the regular one
   * on C2..C7, the high one above C7 (counting up from C#7). None stands for the panic
   * of the table lookup on a note outside the three layouts.
   */
  function StrForNote(note: int, c2: int): (r: Option<string>)
    ensures r.Some? <==> InRange(note, c2)
    ensures r.Some? ==> |r.value| == 1
    ensures r.Some? && note < c2 ==> r.value[0] == LOW_VP_NOTES[(c2 - 1) - note]
    ensures r.Some? && note > c2 + Generic.WINDOW_SPAN ==>
      r.value[0] == HIGH_VP_NOTES[note - (c2 + Generic.WINDOW_SPAN + 1)]
    ensures Generic.InWindow(note, c2) ==> r == Generic.StrForNote(note, c2)
  {
    if note < c2 then
      (if (c2 - 1) - note < |LOW_VP_NOTES| then Some([LOW_VP_NOTES[(c2 - 1) - note]]) else None)
    else if note > c2 + Generic.WINDOW_SPAN then
      var i := note - (c2 + Generic.WINDOW_SPAN + 1);
      (if i < |HIGH_VP_NOTES| then Some([HIGH_VP_NOTES[i]]) else None)
    else
      Generic.StrForNote(note, c2)
  }

  /** The low and high layouts hold only plain keys. */
  lemma OuterLayoutsArePlain()
    ensures forall i | 0 <= i < |LOW_VP_NOTES| :: IsBaseChar(LOW_VP_NOTES[i])
    ensures forall i | 0 <= i < |HIGH_VP_NOTES| :: IsBaseChar(HIGH_VP_NOTES[i])
  {
  }

  /** The key that plays a note in range; outside C2..C7 it is never shifted. */
  function NoteKey(note: int, c2: int, p: Platform): (k: Key)
    requires InRange(note, c2)
    ensures KeyNew(StrForNote(note, c2).value, p) == Success(k)
    ensures IsNoteKey(k, p)
    ensures !Generic.InWindow(note, c2) ==> !k.shifted
  {
    if Generic.InWindow(note, c2) then
      Generic.NoteKey(note, c2, p)
    else
      OuterLayoutsArePlain();
      var s := StrForNote(note, c2).value;
      TableCharKey(s[0], p);
      KeyNew(s, p).value
  }

  /** What `press_note` emits: the velocity prefix, then the note under ctrl when outside C2..C7. */
  function PressNoteEvents(note: int, velocity: u8, c2: int, p: Platform): KeyEvents
    requires InRange(note, c2)
  {
    EventsForVelocity(velocity, p)
      + Bracket(CtrlKey(p), !Generic.InWindow(note, c2), PressKeyEvents(NoteKey(note, c2, p), ShiftKey(p)))
  }

  /** Every modifier pressed in a `press_note` batch is released in it, and the brackets nest. */
  lemma PressBatchWellNested(note: int, velocity: u8, c2: int, p: Platform)
    requires InRange(note, c2)
    ensures WellNested(PressNoteEvents(note, velocity, c2, p), ModifierCodes(p))
  {
    var mods := ModifierCodes(p);
    var k := NoteKey(note, c2, p);
    ShiftKeyCode(p);
    CtrlKeyCode(p);
    NoteKeyIsNotSpecial(k, p);
    PressKeyBalanced(k, ShiftKey(p), mods);
    VelocitySelection(velocity, p, {});
    BracketBalanced(CtrlKey(p), !Generic.InWindow(note, c2), PressKeyEvents(k, ShiftKey(p)), mods);
    BalancedAppend(EventsForVelocity(velocity, p),
      Bracket(CtrlKey(p), !Generic.InWindow(note, c2), PressKeyEvents(k, ShiftKey(p))), mods);
    BalancedWellNested(PressNoteEvents(note, velocity, c2, p), mods);
  }

  /** While no special code is counted, no modifier is among the tracked keys (shift and ctrl differ). */
  lemma ModifiersUntracked(counts: seq<u8>, spaceDown: bool, p: Platform)
    requires forall c | 0 <= c < |counts| && counts[c] > 0 :: c !in SpecialCodes(p)
    ensures var t := Tracked(counts, spaceDown, SpecialCodes(p)[3]);
      ShiftKey(p).code as int !in t && AltKey(p).code as int !in t && CtrlKey(p).code as int !in t
    ensures ShiftKey(p).code != CtrlKey(p).code
  {
    ShiftKeyCode(p);
    AltKeyCode(p);
    CtrlKeyCode(p);
  }

  /**
   * After a `press_note` batch the keys down are the ones the counter records, except
   * the velocity key: its tap leaves it up even when a held note uses the same key.
   */
  lemma PressTracking(counts: seq<u8>, spaceDown: bool, note: int, velocity: u8, c2: int, p: Platform)
    requires InRange(note, c2)
    requires NoteKey(note, c2, p).code < |counts| && counts[NoteKey(note, c2, p).code] < 255
    requires forall c | 0 <= c < |counts| && counts[c] > 0 :: c !in SpecialCodes(p)
    ensures var k := NoteKey(note, c2, p);
      var b := VelocityKey(velocity, p);
      DownAfter(Tracked(counts, spaceDown, SpecialCodes(p)[3]), PressNoteEvents(note, velocity, c2, p))
        == Tracked(AfterPress(counts, k.code), spaceDown, SpecialCodes(p)[3]) - ({b.code} - {k.code})
  {
    var k := NoteKey(note, c2, p);
    var b := VelocityKey(velocity, p);
    var t := Tracked(counts, spaceDown, SpecialCodes(p)[3]);
    ModifiersUntracked(counts, spaceDown, p);
    NoteKeyIsNotSpecial(k, p);
    NoteKeyIsNotSpecial(b, p);
    TapThenPressDownAfter(t, AltKey(p), b, CtrlKey(p), !Generic.InWindow(note, c2), k, ShiftKey(p));
  }

  /** Counting a note press never counts a shift, alt, ctrl or space code. */
  lemma PressKeepsNoSpecialCounted(counts: seq<u8>, note: int, c2: int, p: Platform)
    requires InRange(note, c2)
    requires NoteKey(note, c2, p).code < |counts| && counts[NoteKey(note, c2, p).code] < 255
    requires Generic.NoSpecialCounted(counts, p)
    ensures Generic.NoSpecialCounted(AfterPress(counts, NoteKey(note, c2, p).code), p)
  {
    var k := NoteKey(note, c2, p);
    NoteKeyIsNotSpecial(k, p);
    ShiftKeyCode(p);
    AltKeyCode(p);
    CtrlKeyCode(p);
    SpaceKeyCode(p);
  }

  /** Bucket 15 ("y", the bucket of velocity 66) is the key of the note C2+26. */
  lemma VelocityKeyIsNoteKey(c2: int, p: Platform)
    ensures InRange(c2 + 26, c2) && VelocityKey(66, p) == NoteKey(c2 + 26, c2, p)
  {
    VelocityOf66();
    assert VelocityKey(66, p) == KeyNew("y", p).value;
    assert Generic.REGULAR_VP_NOTES[26] == 'y';
    assert StrForNote(c2 + 26, c2) == Some("y");
    assert NoteKey(c2 + 26, c2, p) == KeyNew("y", p).value;
  }

  /**
   * The velocity key can be one a held note uses: then the OS sees that key up while the
   * counter still records it as held.
   */
  lemma VelocityTapCanLiftHeldNote(counts: seq<u8>, spaceDown: bool, note: int, velocity: u8, c2: int, p: Platform)
    requires InRange(note, c2)
    requires NoteKey(note, c2, p).code < |counts| && counts[NoteKey(note, c2, p).code] < 255
    requires forall c | 0 <= c < |counts| && counts[c] > 0 :: c !in SpecialCodes(p)
    requires VelocityKey(velocity, p).code in Counted(counts)
    requires VelocityKey(velocity, p).code != NoteKey(note, c2, p).code
    ensures var b := VelocityKey(velocity, p).code;
      b in Tracked(AfterPress(counts, NoteKey(note, c2, p).code), spaceDown, SpecialCodes(p)[3])
      && b !in DownAfter(Tracked(counts, spaceDown, SpecialCodes(p)[3]), PressNoteEvents(note, velocity, c2, p))
  {
    PressTracking(counts, spaceDown, note, velocity, c2, p);
  }

  /** The state of `pv::Inner`. */
  class PvInner {
    const platform: Platform
    /** The note number of C2. */
    const c2: int
    /** OS key code -> number of held notes on that key. */
    var pressedChars: array<u8>
    /** Whether the sustain pedal has space held down. */
    var spaceDown: bool

    ghost predicate Valid()
      reads this, pressedChars
    {
      pressedChars.Length == PRESS_TABLE_SIZE && Generic.NoSpecialCounted(pressedChars[..], platform)
    }

    /** The keys this method believes it holds down. */
    ghost function Held(): set<int>
      reads this, pressedChars
    {
      Tracked(pressedChars[..], spaceDown, SpecialCodes(platform)[3])
    }

    constructor(platform: Platform, c2: int)
      ensures Valid() && fresh(pressedChars)
      ensures this.platform == platform && this.c2 == c2
      ensures pressedChars[..] == seq(PRESS_TABLE_SIZE, _ => 0) && !spaceDown
      ensures Held() == {}
    {
      this.platform := platform;
      this.c2 := c2;
      pressedChars := new u8[PRESS_TABLE_SIZE](_ => 0);
      spaceDown := false;
      new;
      assert Counted(pressedChars[..]) == {};
    }

    method PressNote(note: Generic.Note, velocity: u8) returns (events: KeyEvents)
      requires Valid() && InRange(note, c2)
      requires pressedChars[NoteKey(note, c2, platform).code] < 255
      modifies pressedChars
      ensures Valid()
      ensures events == PressNoteEvents(note, velocity, c2, platform)
      ensures pressedChars[..] == AfterPress(old(pressedChars[..]), NoteKey(note, c2, platform).code)
      ensures DownAfter(old(Held()), events)
        == Held() - ({VelocityKey(velocity, platform).code} - {NoteKey(note, c2, platform).code})
    {
      ghost var before := pressedChars[..];
      ghost var k0 := NoteKey(note, c2, platform);
      ghost var prefix := EventsForVelocity(velocity, platform);
      events := [];
      events := events + EventsForVelocity(velocity, platform);
      var is88Key := note < c2 || note > c2 + Generic.WINDOW_SPAN;
      var ctrl := CtrlKey(platform);
      var shift := ShiftKey(platform);
      if is88Key {
        events := events + [Press(ctrl)];
      }
      ghost var opening := events;
      var keystring := StrForNote(note, c2).value;
      var keypress := KeyNew(keystring, platform).value;
      assert keypress == k0;
      // a defensive release first, so that a key left down is struck again
      events := events + [Release(keypress)];
      if keypress.shifted {
        events := events + [Press(shift)];
      }
      events := events + [Press(keypress)];
      pressedChars[keypress.code] := pressedChars[keypress.code] + 1;
      if keypress.shifted {
        events := events + [Release(shift)];
      }
      ghost var closing := events;
      if is88Key {
        events := events + [Release(ctrl)];
      }
      PressKeyPushes(prefix, ctrl, is88Key, keypress, shift, opening, closing, events);
      AfterPressPointwise(before, k0.code, pressedChars[..]);
      PressKeepsNoSpecialCounted(before, note, c2, platform);
      PressTracking(before, spaceDown, note, velocity, c2, platform);
    }

    method ReleaseNote(note: Generic.Note) returns (events: KeyEvents)
      requires Valid() && InRange(note, c2)
      modifies pressedChars
      ensures Valid()
      ensures var k := NoteKey(note, c2, platform);
        events == ReleaseEvents(old(pressedChars[k.code]), k)
        && pressedChars[..] == AfterRelease(old(pressedChars[..]), k.code)
      ensures DownAfter(old(Held()), events) == Held()
    {
      var keyString := StrForNote(note, c2).value;
      ghost var before := pressedChars[..];
      ghost var k0 := NoteKey(note, c2, platform);
      var keypress := KeyNew(keyString, platform).value;
      assert keypress == k0;
      NoteKeyIsNotSpecial(k0, platform);
      var presses := pressedChars[keypress.code];
      if presses != 0 {
        pressedChars[keypress.code] := pressedChars[keypress.code] - 1;
      }
      AfterReleasePointwise(before, k0.code, pressedChars[..]);
      Generic.ReleaseKeepsNoSpecialCounted(before, keypress.code, platform);
      SpaceKeyCode(platform);
      ReleaseKeepsTracking(before, spaceDown, SpecialCodes(platform)[3], keypress);
      if presses > 1 {
        // another held note still uses this key
        return [];
      }
      events := [Release(keypress)];
    }

    method Reset()
      requires Valid()
      modifies this, pressedChars
      ensures Valid() && pressedChars == old(pressedChars)
      ensures pressedChars[..] == seq(PRESS_TABLE_SIZE, _ => 0) && !spaceDown
      ensures Held() == {}
    {
      forall i | 0 <= i < pressedChars.Length {
        pressedChars[i] := 0;
      }
      spaceDown := false;
      assert pressedChars[..] == seq(PRESS_TABLE_SIZE, _ => 0);
      assert Counted(pressedChars[..]) == {};
    }

    method ProcessSustain(value: u8) returns (events: KeyEvents)
      requires Valid()
      modifies this
      ensures Valid() && pressedChars == old(pressedChars)
      ensures events == SustainEvents(old(spaceDown), value, SpaceKey(platform))
      ensures spaceDown == (value >= SUSTAIN_THRESHOLD)
      ensures DownAfter(old(Held()), events) == Held()
    {
      SpaceKeyCode(platform);
      SustainKeepsTracking(pressedChars[..], spaceDown, value, SpaceKey(platform));
      if value >= SUSTAIN_THRESHOLD && !spaceDown {
        spaceDown := true;
        events := [Press(SpaceKey(platform))];
      } else if value < SUSTAIN_THRESHOLD && spaceDown {
        spaceDown := false;
        events := [Release(SpaceKey(platform))];
      } else {
        events := [];
      }
    }
  }
}
