/**
 * The key symbol table: the shift-equivalence table, the per-platform code table,
 * resolution of a key name to a `Key`, and the `KeyEvent` a translation produces.
 */
module Keycodes {
  import opened Wrappers

  type u8 = x: int | 0 <= x < 0x100
  type u16 = x: int | 0 <= x < 0x1_0000
  type u32 = x: int | 0 <= x < 0x1_0000_0000

  /** The build target. Linux and Windows builds read the `windows` column, macOS the `mac` one. */
  datatype Platform = NonMac | Mac

  /**
   * `SHIFTS.get(s)`: the symbols typed with shift held, each mapped to the base key that
   * produces it (a static map, written as a lookup).
   */
  function Shifts(s: string): Option<string>
  {
    match s
    case "!" => Some("1")
    case "A" => Some("a")
    case "K" => Some("k")
    case "U" => Some("u")
    case "@" => Some("2")
    case "B" => Some("b")
    case "L" => Some("l")
    case "V" => Some("v")
    case "#" => Some("3")
    case "C" => Some("c")
    case "M" => Some("m")
    case "W" => Some("w")
    case "$" => Some("4")
    case "D" => Some("d")
    case "N" => Some("n")
    case "X" => Some("x")
    case "%" => Some("5")
    case "E" => Some("e")
    case "O" => Some("o")
    case "Y" => Some("y")
    case "^" => Some("6")
    case "F" => Some("f")
    case "P" => Some("p")
    case "Z" => Some("z")
    case "&" => Some("7")
    case "G" => Some("g")
    case "Q" => Some("q")
    case "*" => Some("8")
    case "H" => Some("h")
    case "R" => Some("r")
    case "(" => Some("9")
    case "I" => Some("i")
    case "S" => Some("s")
    case ")" => Some("0")
    case "J" => Some("j")
    case "T" => Some("t")
    case _ => None
  }

  /** A code for each platform family. */
  datatype UniversalKeyCode = UniversalKeyCode(windows: u32, mac: u32)

  /**
   * `KEYCODES.get(s)`: the named keys the output methods use, with their codes (a static
   * map, written as a lookup).
   */
  function Keycodes(s: string): Option<UniversalKeyCode>
  {
    match s
    case "1" => Some(UniversalKeyCode(2, 0x12))
    case "2" => Some(UniversalKeyCode(3, 0x13))
    case "3" => Some(UniversalKeyCode(4, 0x14))
    case "4" => Some(UniversalKeyCode(5, 0x15))
    case "5" => Some(UniversalKeyCode(6, 0x17))
    case "6" => Some(UniversalKeyCode(7, 0x16))
    case "7" => Some(UniversalKeyCode(8, 0x1a))
    case "8" => Some(UniversalKeyCode(9, 0x1c))
    case "9" => Some(UniversalKeyCode(10, 0x19))
    case "0" => Some(UniversalKeyCode(11, 0x1d))
    case "backspace" => Some(UniversalKeyCode(14, 0x2a))
    case "q" => Some(UniversalKeyCode(16, 0x0c))
    case "w" => Some(UniversalKeyCode(17, 0x0d))
    case "e" => Some(UniversalKeyCode(18, 0x0e))
    case "r" => Some(UniversalKeyCode(19, 0x0f))
    case "t" => Some(UniversalKeyCode(20, 0x11))
    case "y" => Some(UniversalKeyCode(21, 0x10))
    case "u" => Some(UniversalKeyCode(22, 0x20))
    case "i" => Some(UniversalKeyCode(23, 0x22))
    case "o" => Some(UniversalKeyCode(24, 0x1f))
    case "p" => Some(UniversalKeyCode(25, 0x23))
    case "leftbrace" => Some(UniversalKeyCode(26, 0x21))
    case "rightbrace" => Some(UniversalKeyCode(27, 0x1e))
    case "leftctrl" => Some(UniversalKeyCode(29, 0x3b))
    case "a" => Some(UniversalKeyCode(30, 0x00))
    case "s" => Some(UniversalKeyCode(31, 0x01))
    case "d" => Some(UniversalKeyCode(32, 0x02))
    case "f" => Some(UniversalKeyCode(33, 0x03))
    case "g" => Some(UniversalKeyCode(34, 0x05))
    case "h" => Some(UniversalKeyCode(35, 0x04))
    case "j" => Some(UniversalKeyCode(36, 0x26))
    case "k" => Some(UniversalKeyCode(37, 0x28))
    case "l" => Some(UniversalKeyCode(38, 0x25))
    case "semicolon" => Some(UniversalKeyCode(39, 0x29))
    case "grave" => Some(UniversalKeyCode(41, 0x32))
    case "shift" => Some(UniversalKeyCode(42, 0x38))
    case "z" => Some(UniversalKeyCode(44, 0x06))
    case "x" => Some(UniversalKeyCode(45, 0x07))
    case "c" => Some(UniversalKeyCode(46, 0x08))
    case "v" => Some(UniversalKeyCode(47, 0x09))
    case "b" => Some(UniversalKeyCode(48, 0x0b))
    case "n" => Some(UniversalKeyCode(49, 0x2d))
    case "m" => Some(UniversalKeyCode(50, 0x2e))
    case "kpasterisk" => Some(UniversalKeyCode(55, 0x43))
    case "leftalt" => Some(UniversalKeyCode(56, 0xe2))
    case "space" => Some(UniversalKeyCode(57, 0x31))
    case "kp7" => Some(UniversalKeyCode(71, 0x59))
    case "kp8" => Some(UniversalKeyCode(72, 0x5b))
    case "kp9" => Some(UniversalKeyCode(73, 0x5c))
    case "kpminus" => Some(UniversalKeyCode(74, 0x4e))
    case "kp4" => Some(UniversalKeyCode(75, 0x56))
    case "kp5" => Some(UniversalKeyCode(76, 0x57))
    case "kp6" => Some(UniversalKeyCode(77, 0x58))
    case "kpplus" => Some(UniversalKeyCode(78, 0x45))
    case "kp1" => Some(UniversalKeyCode(79, 0x53))
    case "kp2" => Some(UniversalKeyCode(80, 0x54))
    case "kp3" => Some(UniversalKeyCode(81, 0x55))
    case "kp0" => Some(UniversalKeyCode(82, 0x52))
    case _ => None
  }

  /** `UniversalKeyCode::get`: the code of a name for the build's platform, if the name has one. */
  function GetCode(s: string, p: Platform): (r: Option<u32>)
    ensures r.None? <==> Keycodes(s).None?
    ensures Keycodes(s).Some? && p == NonMac ==> r.value == Keycodes(s).value.windows
    ensures Keycodes(s).Some? && p == Mac ==> r.value == Keycodes(s).value.mac
  {
    match Keycodes(s)
    case None => None
    case Some(key) => Some(if p == Mac then key.mac else key.windows)
  }

  /** A resolved key; `shifted` says whether shift must be held to type the symbol. */
  datatype Key = Key(code: u16, shifted: bool)

  /** The two ways `Key::new` panics. */
  datatype KeyError =
    | UnknownKey       // "Invalid key-string supplied"
    | CodeOutOfRange   // the `try_into().unwrap()` of the code into a u16

  /** `Key::new`: resolve a name, going through the shift table first. */
  function KeyNew(s: string, p: Platform): Result<Key, KeyError>
  {
    var unshifted := Shifts(s);
    var code := match unshifted
      case Some(base) => GetCode(base, p)
      case None => GetCode(s, p);
    match code
    case None => Failure(UnknownKey)
    case Some(c) =>
      if c < 0x1_0000 then Success(Key(c, unshifted.Some?)) else Failure(CodeOutOfRange)
  }

  /** A character whose one-character name is a base key: a digit or a lower-case letter. */
  predicate IsBaseChar(c: char)
  {
    '0' <= c <= '9' || 'a' <= c <= 'z'
  }

  /** A character whose one-character name is in the shift table. */
  predicate IsShiftedChar(c: char)
  {
    'A' <= c <= 'Z' || c in "!@#$%^&*()"
  }

  /** Every base symbol of the shift table is a digit or a lower-case letter. */
  lemma ShiftBasesAreBaseChars(s: string)
    requires Shifts(s).Some?
    ensures |Shifts(s).value| == 1 && IsBaseChar(Shifts(s).value[0])
  {
  }

  /** Exactly the shifted characters have a one-character entry in the shift table. */
  lemma ShiftedCharsInShifts(c: char)
    ensures Shifts([c]).Some? <==> IsShiftedChar(c)
  {
  }

  /** Every digit and lower-case letter has its own entry in the code table. */
  lemma BaseCharsInKeycodes(c: char)
    requires IsBaseChar(c)
    ensures Keycodes([c]).Some?
  {
  }

  /** Every base symbol of the shift table has its own, unshifted, entry in the code table. */
  lemma ShiftsTotal(s: string)
    requires Shifts(s).Some?
    ensures Keycodes(Shifts(s).value).Some? && Shifts(Shifts(s).value).None?
  {
    ShiftBasesAreBaseChars(s);
    var base := Shifts(s).value;
    assert base == [base[0]];
    BaseCharsInKeycodes(base[0]);
    ShiftedCharsInShifts(base[0]);
  }

  /** Every code in the table is at most 0xe2, so it always fits in a u16. */
  lemma CodesFitU16(s: string)
    requires Keycodes(s).Some?
    ensures Keycodes(s).value.windows <= 0xe2 && Keycodes(s).value.mac <= 0xe2
  {
  }

  /** A name in the shift table resolves to its base key's code with `shifted` set. */
  lemma ShiftedNameResolvesToBase(s: string, p: Platform)
    requires Shifts(s).Some?
    ensures GetCode(Shifts(s).value, p).Some?
    ensures KeyNew(s, p) == Success(Key(GetCode(Shifts(s).value, p).value, true))
  {
    ShiftsTotal(s);
    CodesFitU16(Shifts(s).value);
  }

  /** A name outside the shift table resolves to its own entry, unshifted. */
  lemma PlainNameResolvesToOwnEntry(s: string, p: Platform)
    requires Shifts(s).None? && Keycodes(s).Some?
    ensures KeyNew(s, p) == Success(Key(GetCode(s, p).value, false))
  {
    CodesFitU16(s);
  }

  /** Resolution fails exactly for names in neither table, and only ever with `UnknownKey`. */
  lemma UnknownNameFails(s: string, p: Platform)
    ensures KeyNew(s, p).Failure? <==> Shifts(s).None? && Keycodes(s).None?
    ensures KeyNew(s, p).Failure? ==> KeyNew(s, p).error == UnknownKey
  {
    if Shifts(s).Some? {
      ShiftedNameResolvesToBase(s, p);
    } else if Keycodes(s).Some? {
      PlainNameResolvesToOwnEntry(s, p);
    }
  }

  /** A shifted symbol and its base share the code; only the symbol is marked shifted. */
  lemma ShiftPairsShareCode(s: string, p: Platform)
    requires Shifts(s).Some?
    ensures KeyNew(s, p).Success? && KeyNew(Shifts(s).value, p).Success?
    ensures KeyNew(s, p).value.code == KeyNew(Shifts(s).value, p).value.code
    ensures KeyNew(s, p).value.shifted && !KeyNew(Shifts(s).value, p).value.shifted
  {
    ShiftsTotal(s);
    ShiftedNameResolvesToBase(s, p);
    PlainNameResolvesToOwnEntry(Shifts(s).value, p);
  }

  /** A key named in the code table and not in the shift table (`"shift"`, `"space"`, ...). */
  function NamedKey(name: string, p: Platform): (k: Key)
    requires Shifts(name).None? && Keycodes(name).Some?
    ensures KeyNew(name, p) == Success(k)
    ensures !k.shifted && k.code == GetCode(name, p).value
  {
    PlainNameResolvesToOwnEntry(name, p);
    KeyNew(name, p).value
  }

  function ShiftKey(p: Platform): Key { NamedKey("shift", p) }
  function AltKey(p: Platform): Key { NamedKey("leftalt", p) }
  function CtrlKey(p: Platform): Key { NamedKey("leftctrl", p) }
  function SpaceKey(p: Platform): Key { NamedKey("space", p) }

  /** The codes of `shift`, `leftalt`, `leftctrl` and `space` on a platform, in that order. */
  function SpecialCodes(p: Platform): seq<int>
  {
    if p == Mac then [0x38, 0xe2, 0x3b, 0x31] else [42, 56, 29, 57]
  }

  /**
   * A key a note can be mapped to: it indexes the 127-entry press counters, and it is
   * none of the keys the output methods use as modifiers or for the sustain pedal.
   */
  predicate IsNoteKey(k: Key, p: Platform)
  {
    k.code < 127 && k.code !in SpecialCodes(p)
  }

  lemma ShiftKeyCode(p: Platform)
    ensures ShiftKey(p).code == SpecialCodes(p)[0]
  {
  }

  lemma AltKeyCode(p: Platform)
    ensures AltKey(p).code == SpecialCodes(p)[1]
  {
  }

  lemma CtrlKeyCode(p: Platform)
    ensures CtrlKey(p).code == SpecialCodes(p)[2]
  {
  }

  lemma SpaceKeyCode(p: Platform)
    ensures SpaceKey(p).code == SpecialCodes(p)[3]
  {
  }

  /** A note key is none of the modifier keys and not the sustain key. */
  lemma NoteKeyIsNotSpecial(k: Key, p: Platform)
    requires IsNoteKey(k, p)
    ensures k.code != ShiftKey(p).code && k.code != AltKey(p).code
    ensures k.code != CtrlKey(p).code && k.code != SpaceKey(p).code
  {
    ShiftKeyCode(p);
    AltKeyCode(p);
    CtrlKeyCode(p);
    SpaceKeyCode(p);
  }

  /** The codes of the digits and lower-case letters avoid the modifier and sustain codes. */
  lemma BaseCharCodeRanges(c: char)
    requires IsBaseChar(c)
    ensures Keycodes([c]).Some?
    ensures var w := Keycodes([c]).value.windows;
      2 <= w <= 11 || 16 <= w <= 25 || 30 <= w <= 38 || 44 <= w <= 50
    ensures Keycodes([c]).value.mac <= 0x2e
  {
  }

  /** The code of every digit and lower-case letter is a note key's code. */
  lemma BaseCharCode(c: char, p: Platform)
    requires IsBaseChar(c)
    ensures GetCode([c], p).Some?
    ensures KeyNew([c], p) == Success(Key(GetCode([c], p).value, false))
    ensures IsNoteKey(KeyNew([c], p).value, p)
  {
    BaseCharCodeRanges(c);
    ShiftedCharsInShifts(c);
    PlainNameResolvesToOwnEntry([c], p);
  }

  /** A shifted character resolves, shifted, to the code of its base character. */
  lemma ShiftedCharResolves(c: char, p: Platform)
    requires Shifts([c]).Some?
    ensures KeyNew([c], p).Success? && KeyNew([c], p).value.shifted
    ensures IsNoteKey(KeyNew([c], p).value, p)
  {
    var base := Shifts([c]).value;
    ShiftBasesAreBaseChars([c]);
    assert base == [base[0]];
    BaseCharCode(base[0], p);
    ShiftedNameResolvesToBase([c], p);
    assert KeyNew([c], p).value.code == KeyNew(base, p).value.code;
  }

  /** Every shifted character resolves, shifted, to a note key. */
  lemma ShiftedCharKey(c: char, p: Platform)
    requires IsShiftedChar(c)
    ensures KeyNew([c], p).Success? && KeyNew([c], p).value.shifted
    ensures IsNoteKey(KeyNew([c], p).value, p)
  {
    ShiftedCharsInShifts(c);
    ShiftedCharResolves(c, p);
  }

  /**
   * Every one-character name the note and velocity tables use resolves, to a note key,
   * and it is shifted exactly when the character is upper-case or a shifted digit symbol.
   */
  lemma TableCharKey(c: char, p: Platform)
    requires IsBaseChar(c) || IsShiftedChar(c)
    ensures KeyNew([c], p).Success?
    ensures KeyNew([c], p).value.shifted <==> IsShiftedChar(c)
    ensures IsNoteKey(KeyNew([c], p).value, p)
  {
    if IsShiftedChar(c) {
      ShiftedCharKey(c, p);
    } else {
      BaseCharCode(c, p);
    }
  }

  /** A key transition. */
  datatype KeyEvent = Press(key: Key) | Release(key: Key)
  {
    /** `KeyEvent::code`: the wrapped key's code, for a press and a release alike. */
    function Code(): (c: u16)
      ensures this == Press(Key(c, key.shifted)) || this == Release(Key(c, key.shifted))
    {
      match this
      case Press(k) => k.code
      case Release(k) => k.code
    }
  }

  /** A sequence of key transitions, in the order they are to be applied. */
  type KeyEvents = seq<KeyEvent>
}
