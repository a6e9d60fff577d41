/**
 * The macOS key sink. It remembers which of shift, left alt and left ctrl it has seen
 * pressed, as a `(shift, alt, ctrl)` tuple updated by every event written, and stamps
 * each posted keyboard event with the matching modifier flags. Posting is modelled
 * as appending `(code, isDown, flags)` to a log.
 */
module MacKeyboard {
  import opened Keycodes
  import opened KeyState

  /** The CGEvent modifier flags the sink sets. */
  datatype EventFlag = Shift | Alternate | Control

  /** `(shift, alt, ctrl)`. */
  type Modifiers = (bool, bool, bool)

  /** One posted keyboard event. */
  datatype Posted = Posted(code: u16, isDown: bool, flags: set<EventFlag>)

  /** A fresh sink's modifiers. */
  const NO_MODIFIERS: Modifiers := (false, false, false)

  /** The macOS codes of shift, left alt and left ctrl. */
  function ShiftCode(): int { SpecialCodes(Mac)[0] }
  function AltCode(): int { SpecialCodes(Mac)[1] }
  function CtrlCode(): int { SpecialCodes(Mac)[2] }

  /** The sink's codes are those `Key::new` gives on macOS. */
  lemma ModifierCodes()
    ensures ShiftKey(Mac).code as int == ShiftCode()
    ensures AltKey(Mac).code as int == AltCode()
    ensures CtrlKey(Mac).code as int == CtrlCode()
  {
    ShiftKeyCode(Mac);
    AltKeyCode(Mac);
    CtrlKeyCode(Mac);
  }

  /** The modifier tuple after one event. */
  function StepModifiers(m: Modifiers, e: KeyEvent): Modifiers
  {
    var code := e.Code() as int;
    (if code == ShiftCode() then e.Press? else m.0,
     if code == AltCode() then e.Press? else m.1,
     if code == CtrlCode() then e.Press? else m.2)
  }

  /** The flags a modifier tuple stands for. */
  function FlagsOf(m: Modifiers): (flags: set<EventFlag>)
    ensures Shift in flags <==> m.0
    ensures Alternate in flags <==> m.1
    ensures Control in flags <==> m.2
  {
    (if m.0 then {Shift} else {}) + (if m.1 then {Alternate} else {}) + (if m.2 then {Control} else {})
  }

  /** What is posted for an event written while the modifiers were `m`. */
  function PostedFor(m: Modifiers, e: KeyEvent): (r: Posted)
    ensures r.code == e.key.code && (r.isDown <==> e.Press?)
    ensures r.flags == FlagsOf(StepModifiers(m, e))
  {
    Posted(e.key.code, e.Press?, FlagsOf(StepModifiers(m, e)))
  }

  /** The modifier tuple after a sequence of events: the left fold of `StepModifiers`. */
  function ModifiersAfter(m: Modifiers, es: KeyEvents): Modifiers
    decreases |es|
  {
    if es == [] then m else ModifiersAfter(StepModifiers(m, es[0]), es[1..])
  }

  /** What `write_many` posts, in order. */
  function PostAll(m: Modifiers, es: KeyEvents): seq<Posted>
    decreases |es|
  {
    if es == [] then [] else [PostedFor(m, es[0])] + PostAll(StepModifiers(m, es[0]), es[1..])
  }

  /**
   * A modifier event sets its own flag (press: true, release: false) and leaves the
   * others; any other event leaves all three.
   */
  lemma StepChangesOnlyOwnFlag(m: Modifiers, e: KeyEvent)
    ensures e.Code() as int == ShiftCode() ==> StepModifiers(m, e) == (e.Press?, m.1, m.2)
    ensures e.Code() as int == AltCode() ==> StepModifiers(m, e) == (m.0, e.Press?, m.2)
    ensures e.Code() as int == CtrlCode() ==> StepModifiers(m, e) == (m.0, m.1, e.Press?)
    ensures e.Code() as int !in {ShiftCode(), AltCode(), CtrlCode()} ==> StepModifiers(m, e) == m
  {
  }

  lemma {:induction false} ModifiersAfterAppend(m: Modifiers, a: KeyEvents, b: KeyEvents)
    ensures ModifiersAfter(m, a + b) == ModifiersAfter(ModifiersAfter(m, a), b)
    decreases |a|
  {
    if a == [] {
      assert a + b == b;
    } else {
      assert (a + b)[1..] == a[1..] + b;
      ModifiersAfterAppend(StepModifiers(m, a[0]), a[1..], b);
    }
  }

  /** One posted event per input, in order, each stamped with the modifiers after it. */
  lemma {:induction false} PostAllInOrder(m: Modifiers, es: KeyEvents)
    ensures |PostAll(m, es)| == |es|
    ensures forall i | 0 <= i < |es| ::
      PostAll(m, es)[i] == PostedFor(ModifiersAfter(m, es[..i]), es[i])
    decreases |es|
  {
    if es != [] {
      var m' := StepModifiers(m, es[0]);
      PostAllInOrder(m', es[1..]);
      forall i | 0 <= i < |es|
        ensures PostAll(m, es)[i] == PostedFor(ModifiersAfter(m, es[..i]), es[i])
      {
        if i > 0 {
          assert es[..i] == [es[0]] + es[1..][..i - 1];
          ModifiersAfterAppend(m, [es[0]], es[1..][..i - 1]);
          assert ModifiersAfter(m, [es[0]]) == m' by {
            assert [es[0]][1..] == [];
          }
        } else {
          assert es[..i] == [];
        }
      }
    }
  }

  /** Which of the three modifier keys are in a set of held codes. */
  function ModifiersOf(down: set<int>): Modifiers
  {
    (ShiftCode() in down, AltCode() in down, CtrlCode() in down)
  }

  /**
   * The modifier tuple follows the keys: started from the modifiers that are down, it
   * ends at the modifiers the events leave down.
   */
  lemma {:induction false} ModifiersFollowKeys(down: set<int>, es: KeyEvents)
    ensures ModifiersAfter(ModifiersOf(down), es) == ModifiersOf(DownAfter(down, es))
    decreases |es|
  {
    if es != [] {
      assert StepModifiers(ModifiersOf(down), es[0]) == ModifiersOf(Apply(down, es[0]));
      ModifiersFollowKeys(Apply(down, es[0]), es[1..]);
    }
  }

  /** `VirtualKeyboard` on macOS, with the event post as an append to `posted`. */
  class VirtualKeyboard {
    var modifiers: Modifiers
    /** Every keyboard event posted so far. */
    var posted: seq<Posted>

    constructor()
      ensures modifiers == NO_MODIFIERS && posted == []
    {
      modifiers := (false, false, false);
      posted := [];
    }

    method WriteCode(event: KeyEvent)
      modifies this
      ensures modifiers == StepModifiers(old(modifiers), event)
      ensures posted == old(posted) + [PostedFor(old(modifiers), event)]
    {
      ModifierCodes();
      if event.Code() == ShiftKey(Mac).code {
        match event
        case Press(_) => modifiers := (true, modifiers.1, modifiers.2);
        case Release(_) => modifiers := (false, modifiers.1, modifiers.2);
      }
      if event.Code() == AltKey(Mac).code {
        match event
        case Press(_) => modifiers := (modifiers.0, true, modifiers.2);
        case Release(_) => modifiers := (modifiers.0, false, modifiers.2);
      }
      if event.Code() == CtrlKey(Mac).code {
        match event
        case Press(_) => modifiers := (modifiers.0, modifiers.1, true);
        case Release(_) => modifiers := (modifiers.0, modifiers.1, false);
      }
      var isDown := event.Press?;
      var code := event.key.code;
      var flags: set<EventFlag> := {};
      if modifiers.0 {
        flags := flags + {Shift};
      }
      if modifiers.1 {
        flags := flags + {Alternate};
      }
      if modifiers.2 {
        flags := flags + {Control};
      }
      assert modifiers == StepModifiers(old(modifiers), event);
      assert flags == FlagsOf(modifiers);
      posted := posted + [Posted(code, isDown, flags)];
    }

    method WriteMany(keypresses: KeyEvents)
      modifies this
      ensures modifiers == ModifiersAfter(old(modifiers), keypresses)
      ensures posted == old(posted) + PostAll(old(modifiers), keypresses)
    {
      ghost var m0 := modifiers;
      ghost var log0 := posted;
      var i := 0;
      while i < |keypresses|
        invariant 0 <= i <= |keypresses|
        invariant modifiers == ModifiersAfter(m0, keypresses[..i])
        invariant posted + PostAll(modifiers, keypresses[i..]) == log0 + PostAll(m0, keypresses)
      {
        assert keypresses[i..][1..] == keypresses[i + 1..];
        ghost var before := modifiers;
        WriteCode(keypresses[i]);
        ModifiersAfterAppend(m0, keypresses[..i], [keypresses[i]]);
        assert keypresses[..i + 1] == keypresses[..i] + [keypresses[i]];
        assert ModifiersAfter(before, [keypresses[i]]) == StepModifiers(before, keypresses[i]) by {
          assert [keypresses[i]][1..] == [];
        }
        i := i + 1;
      }
      assert keypresses[..i] == keypresses;
      assert keypresses[i..] == [];
    }
  }
}
