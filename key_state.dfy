/**
 * The behaviour shared by the Generic and Piano Visualizations output methods: the
 * per-code press counter that both keep in a 127-entry `pressed_chars` array, the
 * latched sustain flag, and the shape of the events they emit for one note key.
 * Also the operating system's view of a stream of key events (which codes are down),
 * against which the counter is proved to be a faithful record.
 */
module KeyState {
  import opened Wrappers
  import opened Keycodes

  /** Number of entries of `pressed_chars`. */
  const PRESS_TABLE_SIZE := 127

  /** Sustain values at or above this count as a held pedal. */
  const SUSTAIN_THRESHOLD := 64

  // ---------------------------------------------------------------------------
  // The operating system's view: which codes are held down.
  // ---------------------------------------------------------------------------

  /** Apply one transition to a set of held codes. */
  function Apply(down: set<int>, e: KeyEvent): set<int>
  {
    if e.Press? then down + {e.Code()} else down - {e.Code()}
  }

  /** The codes held down after the events are applied in order, starting from `down`. */
  function DownAfter(down: set<int>, es: KeyEvents): set<int>
    decreases |es|
  {
    if es == [] then down else DownAfter(Apply(down, es[0]), es[1..])
  }

  lemma {:induction false} DownAfterAppend(down: set<int>, a: KeyEvents, b: KeyEvents)
    ensures DownAfter(down, a + b) == DownAfter(DownAfter(down, a), b)
    decreases |a|
  {
    if a == [] {
      assert a + b == b;
    } else {
      assert (a + b)[1..] == a[1..] + b;
      DownAfterAppend(Apply(down, a[0]), a[1..], b);
    }
  }

  /** Two transitions applied in order. */
  lemma DownAfterPair(down: set<int>, e1: KeyEvent, e2: KeyEvent)
    ensures DownAfter(down, [e1, e2]) == Apply(Apply(down, e1), e2)
  {
    assert [e1, e2][1..] == [e2];
    assert DownAfter(down, [e1, e2]) == DownAfter(Apply(down, e1), [e2]);
    assert [e2][1..] == [];
    assert DownAfter(Apply(down, e1), [e2]) == DownAfter(Apply(Apply(down, e1), e2), []);
  }

  // ---------------------------------------------------------------------------
  // Modifier brackets and their nesting.
  // ---------------------------------------------------------------------------

  /** `inner`, held inside a press and a release of modifier `m` when `on`. */
  function Bracket(m: Key, on: bool, inner: KeyEvents): KeyEvents
  {
    if on then [Press(m)] + inner + [Release(m)] else inner
  }

  /**
   * Replays the events against a stack of open modifier brackets (the codes in `mods`):
   * a modifier press opens a bracket, a modifier release must close the innermost open
   * one. None when a release does not match; otherwise the brackets left open.
   */
  function Unnest(es: KeyEvents, mods: set<int>, stack: seq<int>): Option<seq<int>>
    decreases |es|
  {
    if es == [] then Some(stack)
    else if es[0].Code() !in mods then Unnest(es[1..], mods, stack)
    else if es[0].Press? then Unnest(es[1..], mods, stack + [es[0].Code()])
    else if |stack| > 0 && stack[|stack| - 1] == es[0].Code() then
      Unnest(es[1..], mods, stack[..|stack| - 1])
    else None
  }

  /** Every modifier pressed is released later, and the brackets nest. */
  predicate WellNested(es: KeyEvents, mods: set<int>)
  {
    Unnest(es, mods, []) == Some([])
  }

  /** The events close exactly what they open, whatever is open around them. */
  ghost predicate Balanced(es: KeyEvents, mods: set<int>)
  {
    forall stack :: Unnest(es, mods, stack) == Some(stack)
  }

  lemma {:induction false} UnnestAppend(a: KeyEvents, b: KeyEvents, mods: set<int>, stack: seq<int>)
    ensures Unnest(a + b, mods, stack) ==
      match Unnest(a, mods, stack)
      case None => None
      case Some(o) => Unnest(b, mods, o)
    decreases |a|
  {
    if a == [] {
      assert a + b == b;
    } else {
      assert (a + b)[1..] == a[1..] + b;
      var c := a[0].Code();
      if c !in mods {
        UnnestAppend(a[1..], b, mods, stack);
      } else if a[0].Press? {
        UnnestAppend(a[1..], b, mods, stack + [c]);
      } else if |stack| > 0 && stack[|stack| - 1] == c {
        UnnestAppend(a[1..], b, mods, stack[..|stack| - 1]);
      }
    }
  }

  /** Events that touch no modifier are balanced. */
  lemma {:induction false} NoModifiersBalanced(es: KeyEvents, mods: set<int>)
    requires forall i | 0 <= i < |es| :: es[i].Code() !in mods
    ensures Balanced(es, mods)
    decreases |es|
  {
    if es != [] {
      NoModifiersBalanced(es[1..], mods);
    }
  }

  lemma BalancedAppend(a: KeyEvents, b: KeyEvents, mods: set<int>)
    requires Balanced(a, mods) && Balanced(b, mods)
    ensures Balanced(a + b, mods)
  {
    forall stack
      ensures Unnest(a + b, mods, stack) == Some(stack)
    {
      UnnestAppend(a, b, mods, stack);
    }
  }

  /** Bracketing balanced events with a modifier keeps them balanced. */
  lemma BracketBalanced(m: Key, on: bool, inner: KeyEvents, mods: set<int>)
    requires m.code in mods && Balanced(inner, mods)
    ensures Balanced(Bracket(m, on, inner), mods)
  {
    if on {
      forall o: seq<int>
        ensures Unnest([Press(m)] + inner + [Release(m)], mods, o) == Some(o)
      {
        var withM := o + [m.code];
        assert Unnest([Press(m)], mods, o) == Some(withM) by {
          assert [Press(m)][1..] == [];
        }
        assert Unnest(inner, mods, withM) == Some(withM);
        assert Unnest([Release(m)], mods, withM) == Some(o) by {
          assert [Release(m)][1..] == [];
          assert withM[..|withM| - 1] == o;
        }
        UnnestAppend([Press(m)], inner, mods, o);
        UnnestAppend([Press(m)] + inner, [Release(m)], mods, o);
      }
    }
  }

  /** A bracket leaves its modifier up, whatever the inner events did with it. */
  lemma {:induction false} BracketDownAfter(down: set<int>, m: Key, inner: KeyEvents)
    ensures DownAfter(down, Bracket(m, true, inner)) == DownAfter(down + {m.code}, inner) - {m.code}
  {
    DownAfterAppend(down, [Press(m)], inner);
    DownAfterAppend(down, [Press(m)] + inner, [Release(m)]);
    assert DownAfter(down, [Press(m)]) == down + {m.code} by {
      assert [Press(m)][1..] == [];
    }
    var mid := DownAfter(down + {m.code}, inner);
    assert DownAfter(mid, [Release(m)]) == mid - {m.code} by {
      assert [Release(m)][1..] == [];
    }
  }

  // ---------------------------------------------------------------------------
  // The press counter (`pressed_chars`) and the sustain latch (`space_down`).
  // ---------------------------------------------------------------------------

  /** The codes whose count is positive. */
  function Counted(counts: seq<u8>): set<int>
  {
    set c | 0 <= c < |counts| && counts[c] > 0
  }

  /** What the output method believes is held down: counted codes, and space while latched. */
  function Tracked(counts: seq<u8>, spaceDown: bool, space: int): set<int>
  {
    Counted(counts) + (if spaceDown then {space} else {})
  }

  /**
   * The pushes of a note press, one at a time: an optional modifier press after
   * `prefix`, then the release, optional shift press, press and optional shift release
   * of the key, then the optional modifier release, add up to `prefix` followed by the
   * modifier-bracketed key press.
   */
  lemma PressKeyPushes(prefix: KeyEvents, m: Key, on: bool, k: Key, shift: Key,
                       opening: KeyEvents, closing: KeyEvents, es: KeyEvents)
    requires opening == if on then prefix + [Press(m)] else prefix
    requires closing == if k.shifted
      then ((opening + [Release(k)]) + [Press(shift)]) + [Press(k)] + [Release(shift)]
      else (opening + [Release(k)]) + [Press(k)]
    requires es == if on then closing + [Release(m)] else closing
    ensures es == prefix + Bracket(m, on, PressKeyEvents(k, shift))
  {
    if k.shifted {
      assert closing == opening + PressKeyEvents(k, shift);
    } else {
      assert closing == opening + PressKeyEvents(k, shift);
    }
  }

  /** A table that differs from `counts` only by one more press at `code` is `AfterPress`. */
  lemma AfterPressPointwise(counts: seq<u8>, code: int, r: seq<u8>)
    requires 0 <= code < |counts| && counts[code] < 255
    requires |r| == |counts| && r[code] == counts[code] + 1
    requires forall c | 0 <= c < |counts| && c != code :: r[c] == counts[c]
    ensures r == AfterPress(counts, code)
  {
  }

  /** A table that differs from `counts` only by one saturating release at `code` is `AfterRelease`. */
  lemma AfterReleasePointwise(counts: seq<u8>, code: int, r: seq<u8>)
    requires 0 <= code < |counts|
    requires |r| == |counts| && r[code] == if counts[code] == 0 then 0 else counts[code] - 1
    requires forall c | 0 <= c < |counts| && c != code :: r[c] == counts[c]
    ensures r == AfterRelease(counts, code)
  {
  }

  /** `pressed_chars[code] += 1`. */
  function AfterPress(counts: seq<u8>, code: int): (r: seq<u8>)
    requires 0 <= code < |counts| && counts[code] < 255
    ensures |r| == |counts| && r[code] == counts[code] + 1
    ensures forall c | 0 <= c < |counts| && c != code :: r[c] == counts[c]
    ensures Counted(r) == Counted(counts) + {code}
  {
    var r := counts[code := counts[code] + 1];
    assert Counted(r) == Counted(counts) + {code} by {
      forall c ensures c in Counted(r) <==> c in Counted(counts) + {code} {
      }
    }
    r
  }

  /** `if presses != 0 { pressed_chars[code] -= 1 }`: decrement, saturating at zero. */
  function AfterRelease(counts: seq<u8>, code: int): (r: seq<u8>)
    requires 0 <= code < |counts|
    ensures |r| == |counts| && r[code] == if counts[code] == 0 then 0 else counts[code] - 1
    ensures forall c | 0 <= c < |counts| && c != code :: r[c] == counts[c]
    ensures Counted(r) == if counts[code] <= 1 then Counted(counts) - {code} else Counted(counts)
  {
    var r := if counts[code] != 0 then counts[code := counts[code] - 1] else counts;
    assert Counted(r) == if counts[code] <= 1 then Counted(counts) - {code} else Counted(counts) by {
      forall c ensures c in Counted(r) <==> c in (if counts[code] <= 1 then Counted(counts) - {code} else Counted(counts)) {
      }
    }
    r
  }

  /** The release emitted for a key whose count was `presses`: none while others still hold it. */
  function ReleaseEvents(presses: u8, k: Key): KeyEvents
  {
    if presses > 1 then [] else [Release(k)]
  }

  /** A defensive release of the note key, then its press, inside a shift bracket if shifted. */
  function PressKeyEvents(k: Key, shift: Key): KeyEvents
  {
    [Release(k)] + Bracket(shift, k.shifted, [Press(k)])
  }

  /** The events emitted for a sustain value, given whether the pedal was latched. */
  function SustainEvents(spaceDown: bool, value: u8, space: Key): KeyEvents
  {
    if value >= SUSTAIN_THRESHOLD && !spaceDown then [Press(space)]
    else if value < SUSTAIN_THRESHOLD && spaceDown then [Release(space)]
    else []
  }

  /** One release of a code: the events it emits and the counter after it, by the count before. */
  lemma SaturatingRelease(counts: seq<u8>, code: int, k: Key)
    requires 0 <= code < |counts|
    ensures counts[code] >= 2 ==>
      ReleaseEvents(counts[code], k) == [] && AfterRelease(counts, code)[code] == counts[code] - 1
    ensures counts[code] == 1 ==>
      ReleaseEvents(counts[code], k) == [Release(k)] && AfterRelease(counts, code)[code] == 0
    ensures counts[code] == 0 ==>
      ReleaseEvents(counts[code], k) == [Release(k)] && AfterRelease(counts, code) == counts
  {
  }

  /** The press events of a key leave it down and any shift bracket up. */
  lemma PressKeyDownAfter(down: set<int>, k: Key, shift: Key)
    requires shift.code != k.code && shift.code !in down
    ensures DownAfter(down, PressKeyEvents(k, shift)) == down + {k.code}
  {
    DownAfterAppend(down, [Release(k)], Bracket(shift, k.shifted, [Press(k)]));
    assert DownAfter(down, [Release(k)]) == down - {k.code} by {
      assert [Release(k)][1..] == [];
    }
    var afterRelease := down - {k.code};
    assert DownAfter(afterRelease + {shift.code}, [Press(k)]) == afterRelease + {shift.code} + {k.code} by {
      assert [Press(k)][1..] == [];
    }
    assert DownAfter(afterRelease, [Press(k)]) == afterRelease + {k.code} by {
      assert [Press(k)][1..] == [];
    }
    if k.shifted {
      BracketDownAfter(afterRelease, shift, [Press(k)]);
    }
  }

  /** The press events of a non-modifier key are balanced when shift is a modifier. */
  lemma PressKeyBalanced(k: Key, shift: Key, mods: set<int>)
    requires k.code !in mods && shift.code in mods
    ensures Balanced(PressKeyEvents(k, shift), mods)
  {
    NoModifiersBalanced([Release(k)], mods);
    NoModifiersBalanced([Press(k)], mods);
    BracketBalanced(shift, k.shifted, [Press(k)], mods);
    BalancedAppend([Release(k)], Bracket(shift, k.shifted, [Press(k)]), mods);
  }

  /** The bucket-key tap of a velocity selection, under modifier `m`, leaves the bucket key up. */
  lemma TapDownAfter(down: set<int>, m: Key, b: Key)
    requires m.code !in down && b.code != m.code
    ensures DownAfter(down, Bracket(m, true, [Release(b), Press(b), Release(b)])) == down - {b.code}
  {
    BracketDownAfter(down, m, [Release(b), Press(b), Release(b)]);
    DownAfterAppend(down + {m.code}, [Release(b)], [Press(b), Release(b)]);
    DownAfterPair(down + {m.code} - {b.code}, Press(b), Release(b));
    assert DownAfter(down + {m.code}, [Release(b)]) == down + {m.code} - {b.code} by {
      assert [Release(b)][1..] == [];
    }
  }

  /**
   * A bucket-key tap under `alt`, then the press events of `k` under `ctrl` when `on`:
   * the bucket key ends up, the note key down, every modifier up.
   */
  lemma TapThenPressDownAfter(down: set<int>, alt: Key, b: Key, ctrl: Key, on: bool, k: Key, shift: Key)
    requires alt.code !in down && ctrl.code !in down && shift.code !in down
    requires b.code != alt.code && k.code != ctrl.code && k.code != shift.code && shift.code != ctrl.code
    ensures DownAfter(down, Bracket(alt, true, [Release(b), Press(b), Release(b)])
      + Bracket(ctrl, on, PressKeyEvents(k, shift))) == (down - {b.code}) + {k.code}
  {
    var tap := Bracket(alt, true, [Release(b), Press(b), Release(b)]);
    DownAfterAppend(down, tap, Bracket(ctrl, on, PressKeyEvents(k, shift)));
    TapDownAfter(down, alt, b);
    var mid := down - {b.code};
    if on {
      BracketDownAfter(mid, ctrl, PressKeyEvents(k, shift));
      PressKeyDownAfter(mid + {ctrl.code}, k, shift);
    } else {
      PressKeyDownAfter(mid, k, shift);
    }
  }

  /** Balanced events are well nested on their own. */
  lemma BalancedWellNested(es: KeyEvents, mods: set<int>)
    requires Balanced(es, mods)
    ensures WellNested(es, mods)
  {
    assert Unnest(es, mods, []) == Some([]);
  }

  /**
   * Pressing a note key keeps the record faithful: the keys down after the emitted
   * events are exactly the counted ones (plus space while latched).
   */
  lemma PressKeepsTracking(counts: seq<u8>, spaceDown: bool, space: int, k: Key, shift: Key)
    requires k.code < |counts| && counts[k.code] < 255
    requires shift.code != k.code && shift.code !in Tracked(counts, spaceDown, space)
    ensures DownAfter(Tracked(counts, spaceDown, space), PressKeyEvents(k, shift))
      == Tracked(AfterPress(counts, k.code), spaceDown, space)
  {
    PressKeyDownAfter(Tracked(counts, spaceDown, space), k, shift);
  }

  /** Releasing a note key keeps the record faithful. */
  lemma ReleaseKeepsTracking(counts: seq<u8>, spaceDown: bool, space: int, k: Key)
    requires k.code < |counts| && k.code != space
    ensures DownAfter(Tracked(counts, spaceDown, space), ReleaseEvents(counts[k.code], k))
      == Tracked(AfterRelease(counts, k.code), spaceDown, space)
  {
    var t := Tracked(counts, spaceDown, space);
    if counts[k.code] <= 1 {
      assert DownAfter(t, [Release(k)]) == t - {k.code} by {
        assert [Release(k)][1..] == [];
      }
    }
  }

  /** A sustain change keeps the record faithful, and the latch follows the threshold. */
  lemma SustainKeepsTracking(counts: seq<u8>, spaceDown: bool, value: u8, space: Key)
    requires space.code !in Counted(counts)
    ensures DownAfter(Tracked(counts, spaceDown, space.code), SustainEvents(spaceDown, value, space))
      == Tracked(counts, value >= SUSTAIN_THRESHOLD, space.code)
  {
    var es := SustainEvents(spaceDown, value, space);
    if es != [] {
      assert es[1..] == [];
    }
  }

  /**
   * Sustain is edge-triggered: a press exactly on a change to held, a release exactly on
   * a change to raised, nothing when the value stays on the same side of 64.
   */
  lemma SustainEdgeTriggered(spaceDown: bool, value: u8, space: Key)
    ensures SustainEvents(spaceDown, value, space) == [Press(space)]
      <==> !spaceDown && value >= SUSTAIN_THRESHOLD
    ensures SustainEvents(spaceDown, value, space) == [Release(space)]
      <==> spaceDown && value < SUSTAIN_THRESHOLD
    ensures SustainEvents(spaceDown, value, space) == []
      <==> spaceDown == (value >= SUSTAIN_THRESHOLD)
  {
  }

  /** The events of a run of sustain values, starting from latch `spaceDown`. */
  function SustainRun(spaceDown: bool, values: seq<u8>, space: Key): KeyEvents
    decreases |values|
  {
    if values == [] then [] else
      SustainEvents(spaceDown, values[0], space)
      + SustainRun(values[0] >= SUSTAIN_THRESHOLD, values[1..], space)
  }

  /** A run of held-pedal values emits one press of space overall, and only if not latched. */
  lemma {:induction false} HeldPedalPressesOnce(spaceDown: bool, values: seq<u8>, space: Key)
    requires forall i | 0 <= i < |values| :: values[i] >= SUSTAIN_THRESHOLD
    ensures SustainRun(spaceDown, values, space)
      == if spaceDown || values == [] then [] else [Press(space)]
    decreases |values|
  {
    if values != [] {
      HeldPedalPressesOnce(true, values[1..], space);
    }
  }

  /** A run of raised-pedal values emits one release of space overall, and only if latched. */
  lemma {:induction false} RaisedPedalReleasesOnce(spaceDown: bool, values: seq<u8>, space: Key)
    requires forall i | 0 <= i < |values| :: values[i] < SUSTAIN_THRESHOLD
    ensures SustainRun(spaceDown, values, space)
      == if !spaceDown || values == [] then [] else [Release(space)]
    decreases |values|
  {
    if values != [] {
      RaisedPedalReleasesOnce(false, values[1..], space);
    }
  }
}
