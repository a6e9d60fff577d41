/**
 * The "Piano Rooms" output method. It keeps no state: every note-on, note-off and
 * sustain change is sent as one burst of keypad taps, a delimiter tap of keypad
 * asterisk followed by four base-12 digits (two per value), each digit tapped on one
 * of twelve keypad keys.
 */
module PianoRooms {
  import opened Wrappers
  import opened Keycodes
  import opened KeyState

  /** The key that stands for each base-12 digit. */
  const PIANO_ROOMS_KEYS: seq<string> :=
    ["kp0", "kp1", "kp2", "kp3", "kp4", "kp5", "kp6", "kp7", "kp8", "kp9", "kpminus", "kpplus"]

  /** The key tapped before every burst. */
  const DELIMITER := "kpasterisk"

  /** Each value is sent as two digits of this base. */
  const BASE := 12

  /** The first value of a sustain burst, 143 = 11 * 12 + 11, above every note number. */
  const SUSTAIN_CONTROL := 143

  /** The codes of the digit keys, per platform. */
  function KeypadCodes(p: Platform): seq<int>
  {
    match p
    case NonMac => [82, 79, 80, 81, 75, 76, 77, 71, 72, 73, 74, 78]
    case Mac => [0x52, 0x53, 0x54, 0x55, 0x56, 0x57, 0x58, 0x59, 0x5b, 0x5c, 0x4e, 0x45]
  }

  /** The code of the delimiter key, per platform. */
  function DelimiterCode(p: Platform): int
  {
    match p
    case NonMac => 55
    case Mac => 0x43
  }

  /** The codes of the digit keys on the two platforms, read from the name-to-code table. */
  lemma KeypadEntries(d: nat)
    requires d < BASE
    ensures |PIANO_ROOMS_KEYS| == BASE
    ensures Keycodes.Keycodes(PIANO_ROOMS_KEYS[d])
      == Some(UniversalKeyCode(KeypadCodes(NonMac)[d] as u32, KeypadCodes(Mac)[d] as u32))
  {
  }

  /** No digit name is a shifted symbol. */
  lemma KeypadNotShifted(d: nat)
    requires d < BASE
    ensures |PIANO_ROOMS_KEYS| == BASE
    ensures Shifts(PIANO_ROOMS_KEYS[d]).None?
  {
  }

  /** Every digit name resolves to a plain key with the code above. */
  lemma KeypadNames(d: nat, p: Platform)
    requires d < BASE
    ensures |PIANO_ROOMS_KEYS| == BASE
    ensures Shifts(PIANO_ROOMS_KEYS[d]).None? && Keycodes.Keycodes(PIANO_ROOMS_KEYS[d]).Some?
    ensures GetCode(PIANO_ROOMS_KEYS[d], p) == Some(KeypadCodes(p)[d] as u32)
  {
    KeypadEntries(d);
    KeypadNotShifted(d);
  }

  lemma DelimiterName(p: Platform)
    ensures Shifts(DELIMITER).None? && Keycodes.Keycodes(DELIMITER).Some?
    ensures GetCode(DELIMITER, p) == Some(DelimiterCode(p) as u32)
  {
  }

  /** The digit keys have pairwise different codes, all different from the delimiter's. */
  lemma KeypadCodesDistinct(p: Platform)
    ensures |KeypadCodes(p)| == BASE
    ensures forall i, j | 0 <= i < j < BASE :: KeypadCodes(p)[i] != KeypadCodes(p)[j]
    ensures DelimiterCode(p) !in KeypadCodes(p)
  {
  }

  /** The key of digit `d`: a plain key with the digit's keypad code. */
  function DigitKey(d: nat, p: Platform): Key
    requires d < BASE
  {
    Key(KeypadCodes(p)[d] as u16, false)
  }

  /** The delimiter key: a plain key with keypad asterisk's code. */
  function DelimiterKey(p: Platform): Key
  {
    Key(DelimiterCode(p) as u16, false)
  }

  /** `Key::new(PIANO_ROOMS_KEYS[d])` is the key of digit `d`. */
  lemma DigitKeyResolves(d: nat, p: Platform)
    requires d < BASE
    ensures KeyNew(PIANO_ROOMS_KEYS[d], p) == Success(DigitKey(d, p))
  {
    KeypadNames(d, p);
    PlainNameResolvesToOwnEntry(PIANO_ROOMS_KEYS[d], p);
  }

  /** `Key::new("kpasterisk")` is the delimiter key. */
  lemma DelimiterKeyResolves(p: Platform)
    ensures KeyNew(DELIMITER, p) == Success(DelimiterKey(p))
  {
    DelimiterName(p);
    PlainNameResolvesToOwnEntry(DELIMITER, p);
  }

  /** `Key::new(PIANO_ROOMS_KEYS[d])`. */
  method NewDigitKey(d: nat, p: Platform) returns (key: Key)
    requires d < BASE
    ensures key == DigitKey(d, p)
  {
    DigitKeyResolves(d, p);
    key := KeyNew(PIANO_ROOMS_KEYS[d], p).value;
  }

  /** `Key::new("kpasterisk")`. */
  method NewDelimiterKey(p: Platform) returns (key: Key)
    ensures key == DelimiterKey(p)
  {
    DelimiterKeyResolves(p);
    key := KeyNew(DELIMITER, p).value;
  }

  /** A press immediately followed by the release of the same key. */
  function Tap(k: Key): KeyEvents
  {
    [Press(k), Release(k)]
  }

  predicate AllDigits(ds: seq<int>)
  {
    forall i | 0 <= i < |ds| :: 0 <= ds[i] < BASE
  }

  /** The taps of the digit keys, in order. */
  function Taps(ds: seq<int>, p: Platform): (es: KeyEvents)
    requires AllDigits(ds)
    ensures |es| == 2 * |ds|
    decreases |ds|
  {
    if ds == [] then [] else Tap(DigitKey(ds[0], p)) + Taps(ds[1..], p)
  }

  lemma {:induction false} TapsAppend(ds: seq<int>, d: int, p: Platform)
    requires AllDigits(ds) && 0 <= d < BASE
    ensures AllDigits(ds + [d])
    ensures Taps(ds + [d], p) == Taps(ds, p) + Tap(DigitKey(d, p))
    decreases |ds|
  {
    assert AllDigits(ds + [d]);
    if ds == [] {
      assert [d][1..] == [];
    } else {
      assert (ds + [d])[1..] == ds[1..] + [d];
      TapsAppend(ds[1..], d, p);
    }
  }

  /** One whole burst: the delimiter tap, then the digit taps. */
  function Burst(ds: seq<int>, p: Platform): KeyEvents
    requires AllDigits(ds)
  {
    Tap(DelimiterKey(p)) + Taps(ds, p)
  }

  /** The two base-12 digits of a value. */
  function Digits(x: nat): (ds: seq<int>)
    ensures |ds| == 2 && 0 <= ds[1] < BASE
    ensures BASE * ds[0] + ds[1] == x
    ensures 0 <= ds[0] < BASE <==> x < BASE * BASE
  {
    [x / BASE, x % BASE]
  }

  /** The four digits that carry a pair of values. */
  function FrameDigits(first: nat, second: nat): seq<int>
  {
    Digits(first) + Digits(second)
  }

  /** The digits of a pair are all digit-key indexes exactly when both values are below 144. */
  lemma FrameDigitsValid(first: nat, second: nat)
    ensures AllDigits(FrameDigits(first, second)) <==> first < BASE * BASE && second < BASE * BASE
  {
    var ds := FrameDigits(first, second);
    assert ds[0] == Digits(first)[0] && ds[2] == Digits(second)[0];
  }

  // ---------------------------------------------------------------------------
  // The receiving side: reading a burst back.
  // ---------------------------------------------------------------------------

  /** The position of the first `x` in `xs`. */
  function IndexOf(xs: seq<int>, x: int): (r: Option<nat>)
    ensures r.None? <==> x !in xs
    ensures r.Some? ==> r.value < |xs| && xs[r.value] == x
    ensures r.Some? ==> forall j | 0 <= j < r.value :: xs[j] != x
    decreases |xs|
  {
    if xs == [] then None
    else if xs[0] == x then Some(0)
    else match IndexOf(xs[1..], x)
      case None => None
      case Some(i) => Some(i + 1)
  }

  /** The digit a key code stands for. */
  function DigitOf(code: int, p: Platform): Option<nat>
  {
    IndexOf(KeypadCodes(p), code)
  }

  lemma DigitOfDigitKey(d: nat, p: Platform)
    requires d < BASE
    ensures DigitOf(DigitKey(d, p).code as int, p) == Some(d)
  {
    KeypadCodesDistinct(p);
  }

  /** Reads the taps of digit keys back into their digits. */
  function DecodeTaps(es: KeyEvents, p: Platform): Option<seq<int>>
    decreases |es|
  {
    if es == [] then Some([])
    else if |es| >= 2 && es[0].Press? && es[1].Release? && es[1].Code() == es[0].Code()
      && DigitOf(es[0].Code() as int, p).Some? then
      match DecodeTaps(es[2..], p)
      case None => None
      case Some(ds) => Some([DigitOf(es[0].Code() as int, p).value as int] + ds)
    else None
  }

  /** Reads a burst back into its digits: a delimiter tap, then digit taps. */
  function DecodeBurst(es: KeyEvents, p: Platform): Option<seq<int>>
  {
    if |es| >= 2 && es[0].Press? && es[1].Release?
      && es[0].Code() as int == DelimiterCode(p) && es[1].Code() as int == DelimiterCode(p)
    then DecodeTaps(es[2..], p)
    else None
  }

  /** The two values carried by four digits. */
  function FrameOf(ds: seq<int>): Option<(nat, nat)>
  {
    if |ds| == 4 && AllDigits(ds) then Some((BASE * ds[0] + ds[1], BASE * ds[2] + ds[3])) else None
  }

  /** Reads a four-digit burst back into its two values. */
  function DecodeFrame(es: KeyEvents, p: Platform): Option<(nat, nat)>
  {
    match DecodeBurst(es, p)
    case Some(ds) => FrameOf(ds)
    case None => None
  }

  /** One digit tap in front of decodable taps reads back as that digit in front. */
  lemma DecodeTapsCons(d: nat, rest: KeyEvents, tail: seq<int>, p: Platform)
    requires d < BASE
    requires DecodeTaps(rest, p) == Some(tail)
    ensures DecodeTaps(Tap(DigitKey(d, p)) + rest, p) == Some([d as int] + tail)
  {
    var k := DigitKey(d, p);
    DigitOfDigitKey(d, p);
    var es := Tap(k) + rest;
    assert es[0] == Press(k) && es[1] == Release(k) && es[2..] == rest;
  }

  lemma {:induction false} DecodeTapsInverse(ds: seq<int>, p: Platform)
    requires AllDigits(ds)
    ensures DecodeTaps(Taps(ds, p), p) == Some(ds)
    decreases |ds|
  {
    if ds != [] {
      var d, tl := ds[0], ds[1..];
      assert 0 <= d < BASE && AllDigits(tl) && ds == [d] + tl;
      assert Taps(ds, p) == Tap(DigitKey(d, p)) + Taps(tl, p);
      DecodeTapsInverse(tl, p);
      DecodeTapsCons(d, Taps(tl, p), tl, p);
    }
  }

  /** A burst reads back as the digits it was made from. */
  lemma BurstRoundTrip(ds: seq<int>, p: Platform)
    requires AllDigits(ds)
    ensures DecodeBurst(Burst(ds, p), p) == Some(ds)
  {
    var es := Burst(ds, p);
    assert es[2..] == Taps(ds, p);
    DecodeTapsInverse(ds, p);
  }

  /** A frame reads back as the pair of values it carries. */
  lemma FrameRoundTrip(first: nat, second: nat, p: Platform)
    requires first < BASE * BASE && second < BASE * BASE
    ensures AllDigits(FrameDigits(first, second))
    ensures DecodeFrame(Burst(FrameDigits(first, second), p), p) == Some((first, second))
  {
    var ds := FrameDigits(first, second);
    FrameDigitsValid(first, second);
    BurstRoundTrip(ds, p);
    FrameOfDigits(first, second);
  }

  /** Four digits read back as the pair they were made from. */
  lemma FrameOfDigits(first: nat, second: nat)
    requires first < BASE * BASE && second < BASE * BASE
    ensures FrameOf(FrameDigits(first, second)) == Some((first, second))
  {
    var hi := Digits(first);
    var lo := Digits(second);
    var ds := FrameDigits(first, second);
    FrameDigitsValid(first, second);
    assert ds[0] == hi[0] && ds[1] == hi[1] && ds[2] == lo[0] && ds[3] == lo[1];
  }

  /** Every key a burst presses it releases straight away: nothing is left held. */
  lemma {:induction false} TapsLeaveNothingHeld(down: set<int>, ds: seq<int>, p: Platform)
    requires AllDigits(ds)
    ensures DownAfter(down, Taps(ds, p)) <= down
    decreases |ds|
  {
    if ds != [] {
      var k := DigitKey(ds[0], p);
      DownAfterAppend(down, Tap(k), Taps(ds[1..], p));
      DownAfterPair(down, Press(k), Release(k));
      TapsLeaveNothingHeld(DownAfter(down, Tap(k)), ds[1..], p);
    }
  }

  lemma BurstLeavesNothingHeld(down: set<int>, ds: seq<int>, p: Platform)
    requires AllDigits(ds)
    ensures DownAfter(down, Burst(ds, p)) <= down
  {
    var k := DelimiterKey(p);
    DownAfterAppend(down, Tap(k), Taps(ds, p));
    DownAfterPair(down, Press(k), Release(k));
    TapsLeaveNothingHeld(DownAfter(down, Tap(k)), ds, p);
  }

  // ---------------------------------------------------------------------------
  // The output method.
  // ---------------------------------------------------------------------------

  /** The taps of one more digit of `ds` extend the taps of the shorter prefix. */
  lemma TapsPrefixStep(ds: seq<int>, i: nat, p: Platform)
    requires AllDigits(ds) && i < |ds|
    ensures AllDigits(ds[..i]) && AllDigits(ds[..i + 1])
    ensures Taps(ds[..i + 1], p) == Taps(ds[..i], p) + Tap(DigitKey(ds[i], p))
  {
    assert ds[..i + 1] == ds[..i] + [ds[i]];
    TapsAppend(ds[..i], ds[i], p);
  }

  /** The `for_each` over the digits: the delimiter tap, then one tap per digit key. */
  method Transmit(ds: seq<int>, p: Platform) returns (events: KeyEvents)
    requires AllDigits(ds)
    ensures events == Burst(ds, p)
  {
    var delimiter := NewDelimiterKey(p);
    events := [Press(delimiter), Release(delimiter)];
    var i := 0;
    while i < |ds|
      invariant 0 <= i <= |ds|
      invariant events == Tap(DelimiterKey(p)) + Taps(ds[..i], p)
    {
      ghost var sent := events;
      var d := ds[i];
      var key := NewDigitKey(d, p);
      events := events + [Press(key)];
      events := events + [Release(key)];
      assert events == sent + Tap(DigitKey(d, p));
      TapsPrefixStep(ds, i, p);
      i := i + 1;
    }
    assert ds[..i] == ds;
  }

  /** `press_note`: the note and the velocity; it panics at velocity 144 and above. */
  method PressNote(note: nat, velocity: u8, p: Platform) returns (events: KeyEvents)
    requires note < 128 && velocity < BASE * BASE
    ensures AllDigits(FrameDigits(note, velocity as nat)) && events == Burst(FrameDigits(note, velocity as nat), p)
    ensures |events| == 10
    ensures DecodeFrame(events, p) == Some((note, velocity as nat))
    ensures forall down: set<int> :: DownAfter(down, events) <= down
  {
    var toSend := [note / BASE, note % BASE, velocity as int / BASE, velocity as int % BASE];
    assert toSend == FrameDigits(note, velocity as nat);
    FrameRoundTrip(note, velocity as nat, p);
    events := Transmit(toSend, p);
    forall down: set<int> ensures DownAfter(down, events) <= down {
      BurstLeavesNothingHeld(down, toSend, p);
    }
  }

  /** `release_note`: the note, then two zero digits, the same burst as a velocity-0 press. */
  method ReleaseNote(note: nat, p: Platform) returns (events: KeyEvents)
    requires note < 128
    ensures AllDigits(FrameDigits(note, 0)) && events == Burst(FrameDigits(note, 0), p)
    ensures |events| == 10
    ensures DecodeFrame(events, p) == Some((note, 0))
    ensures forall down: set<int> :: DownAfter(down, events) <= down
  {
    var toSend := [note / BASE, note % BASE, 0, 0];
    assert toSend == FrameDigits(note, 0);
    FrameRoundTrip(note, 0, p);
    events := Transmit(toSend, p);
    forall down: set<int> ensures DownAfter(down, events) <= down {
      BurstLeavesNothingHeld(down, toSend, p);
    }
  }

  /** `process_sustain`: the control 143, then the value; it panics at 144 and above. */
  method ProcessSustain(value: u8, p: Platform) returns (events: KeyEvents)
    requires value < BASE * BASE
    ensures AllDigits(FrameDigits(SUSTAIN_CONTROL, value as nat))
      && events == Burst(FrameDigits(SUSTAIN_CONTROL, value as nat), p)
    ensures |events| == 10
    ensures DecodeFrame(events, p) == Some((SUSTAIN_CONTROL, value as nat))
    ensures forall down: set<int> :: DownAfter(down, events) <= down
  {
    var control := SUSTAIN_CONTROL;
    var toSend := [control / BASE, control % BASE, value as int / BASE, value as int % BASE];
    assert toSend == FrameDigits(control, value as nat);
    FrameRoundTrip(control, value as nat, p);
    events := Transmit(toSend, p);
    forall down: set<int> ensures DownAfter(down, events) <= down {
      BurstLeavesNothingHeld(down, toSend, p);
    }
  }

  /** A note burst and a sustain burst never read back alike, since notes are below 143. */
  lemma SustainFrameIsNotANote(note: nat, x: nat, value: nat, p: Platform)
    requires note < 128 && x < BASE * BASE && value < BASE * BASE
    ensures Burst(FrameDigits(note, x), p) != Burst(FrameDigits(SUSTAIN_CONTROL, value), p)
  {
    FrameRoundTrip(note, x, p);
    FrameRoundTrip(SUSTAIN_CONTROL, value, p);
  }

  /** `press_note(60, 100)` taps kp5, kp0, kp8, kp4 after the delimiter. */
  lemma MiddleCExample(p: Platform)
    ensures FrameDigits(60, 100) == [5, 0, 8, 4]
    ensures AllDigits([5, 0, 8, 4])
    ensures Burst([5, 0, 8, 4], p) == Tap(DelimiterKey(p))
      + Tap(DigitKey(5, p)) + Tap(DigitKey(0, p)) + Tap(DigitKey(8, p)) + Tap(DigitKey(4, p))
  {
    assert AllDigits([5, 0, 8, 4]);
    assert Taps([4], p) == Tap(DigitKey(4, p)) by {
      assert [4][1..] == [];
    }
    assert [8, 4][1..] == [4];
    assert [0, 8, 4][1..] == [8, 4];
    assert [5, 0, 8, 4][1..] == [0, 8, 4];
  }
}
