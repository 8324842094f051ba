/**
 * Note naming: a semitone number (MIDI numbering, A4 = 69) rendered as a
 * pitch-class name followed by an octave number, as `note_name` does it,
 * together with a parser that reads such a name back.  The parser is the
 * partner that the properties of `NoteName` are stated against.
 */
module Notes {
  import opened Wrappers

  /** The twelve chromatic pitch-class names, starting from C. */
  const NoteNames: seq<string> := ["C", "C#", "D", "D#", "E", "F", "F#", "G", "G#", "A", "A#", "B"]

  /** Integer quotient rounded toward zero, which is what Python's `int()` does to a float. */
  function TruncDiv(a: int, b: int): int
    requires b > 0
  {
    if a >= 0 then a / b else -((-a) / b)
  }

  /**
   * The octave printed by `note_name`: `int(n/12 - 1)`, i.e. (n - 12)/12
   * rounded toward zero.  From n = 12 on this is the floor n/12 - 1; below
   * 12 it rounds up instead, so 1..11 all print octave 0.
   */
  function Octave(n: int): (o: int)
    ensures n >= 12 ==> 12 * (o + 1) <= n < 12 * (o + 2)
    ensures n < 12 ==> 12 * o < n <= 12 * (o + 1)
  {
    TruncDiv(n - 12, 12)
  }

  predicate IsDigit(c: char) { '0' <= c <= '9' }

  predicate AllDigits(s: string) { forall i :: 0 <= i < |s| ==> IsDigit(s[i]) }

  function DigitChar(d: nat): (c: char)
    requires d < 10
    ensures IsDigit(c)
  {
    "0123456789"[d]
  }

  function DigitValue(c: char): nat
    requires IsDigit(c)
  {
    (c as int) - ('0' as int)
  }

  /** Decimal rendering of a natural number, most significant digit first, as Python's `str`. */
  function NatToString(n: nat): (s: string)
    ensures |s| >= 1
    decreases n
  {
    if n < 10 then [DigitChar(n)] else NatToString(n / 10) + [DigitChar(n % 10)]
  }

  /** Python's `str` of an integer: a minus sign for negative values. */
  function IntToString(i: int): (s: string)
    ensures |s| >= 1
    decreases if i < 0 then 1 else 0
  {
    if i < 0 then "-" + IntToString(-i) else NatToString(i)
  }

  /** The pitch-class part of a note name: NoteNames[n mod 12]. */
  function PitchClassName(n: int): string
  {
    NoteNames[n % 12]
  }

  /** The octave part of a note name, as Python's `str` prints it. */
  function OctaveText(n: int): string
  {
    IntToString(Octave(n))
  }

  /** `note_name(n)`: the pitch class of n (n mod 12) followed by its octave. */
  function NoteName(n: int): string
  {
    PitchClassName(n) + OctaveText(n)
  }

  // ---------------------------------------------------------------------------
  // Reading a rendered name back

  function ParseNat(s: string): nat
    requires |s| >= 1 && AllDigits(s)
    decreases |s|
  {
    if |s| == 1 then DigitValue(s[0])
    else 10 * ParseNat(s[..|s| - 1]) + DigitValue(s[|s| - 1])
  }

  function ParseInt(s: string): Option<int>
  {
    if |s| >= 2 && s[0] == '-' && AllDigits(s[1..]) then Some(0 - ParseNat(s[1..]))
    else if |s| >= 1 && AllDigits(s) then Some(ParseNat(s))
    else None
  }

  function IndexOf(names: seq<string>, x: string): Option<nat>
  {
    if names == [] then None
    else if names[0] == x then Some(0)
    else match IndexOf(names[1..], x)
      case None => None
      case Some(i) => Some(i + 1)
  }

  function PitchClassOf(name: string): Option<nat>
  {
    IndexOf(NoteNames, name)
  }

  /** A note name split into its pitch class (an index into NoteNames) and octave. */
  datatype NoteParts = NoteParts(pitchClass: nat, octave: int)

  /** Reads "C#3" back as NoteParts(1, 3); None for anything `NoteName` cannot produce. */
  function ParseNoteName(s: string): Option<NoteParts>
  {
    var k := if |s| >= 2 && s[1] == '#' then 2 else 1;
    if |s| < k then None
    else match PitchClassOf(s[..k])
      case None => None
      case Some(p) =>
        match ParseInt(s[k..])
        case None => None
        case Some(o) => Some(NoteParts(p, o))
  }

  /** The semitone number a note name denotes, if it is one: 12 * (octave + 1) + pitch class. */
  function Semitone(s: string): Option<int>
  {
    match ParseNoteName(s)
    case None => None
    case Some(parts) => Some(12 * (parts.octave + 1) + parts.pitchClass)
  }

  // ---------------------------------------------------------------------------
  // Properties

  /** Decimal rendering uses digits only. */
  lemma {:induction false} NatToStringDigits(n: nat)
    ensures AllDigits(NatToString(n))
    decreases n
  {
    if n >= 10 {
      NatToStringDigits(n / 10);
    }
  }

  /** The rendering of an integer starts with a minus sign or a digit, never a sharp sign. */
  lemma IntToStringHead(i: int)
    ensures IntToString(i)[0] == '-' || IsDigit(IntToString(i)[0])
  {
    NatToStringDigits(if i < 0 then -i else i);
  }

  /** Reading the digits of a natural number gives the number back. */
  lemma {:induction false} ParseNatOfNatToString(n: nat)
    ensures AllDigits(NatToString(n))
    ensures ParseNat(NatToString(n)) == n
    decreases n
  {
    NatToStringDigits(n);
    if n >= 10 {
      var s := NatToString(n);
      assert s[..|s| - 1] == NatToString(n / 10);
      ParseNatOfNatToString(n / 10);
    }
  }

  /** `str` of an integer reads back as that integer. */
  lemma ParseIntOfIntToString(i: int)
    ensures ParseInt(IntToString(i)) == Some(i)
  {
    if i < 0 {
      ParseIntOfNegative(i);
    } else {
      ParseIntOfNonNegative(i);
    }
  }

  lemma ParseIntOfNegative(i: int)
    requires i < 0
    ensures ParseInt(IntToString(i)) == Some(i)
  {
    ParseNatOfNatToString(-i);
    ParseIntOfMinusDigits(NatToString(-i));
  }

  lemma ParseIntOfNonNegative(i: int)
    requires i >= 0
    ensures ParseInt(IntToString(i)) == Some(i)
  {
    ParseNatOfNatToString(i);
    ParseIntOfDigits(NatToString(i));
  }

  /** A minus sign followed by digits reads as the negated number. */
  lemma ParseIntOfMinusDigits(digits: string)
    requires |digits| >= 1 && AllDigits(digits)
    ensures ParseInt("-" + digits) == Some(0 - ParseNat(digits))
  {
    assert ("-" + digits)[1..] == digits;
  }

  /** Digits alone read as the number they spell. */
  lemma ParseIntOfDigits(digits: string)
    requires |digits| >= 1 && AllDigits(digits)
    ensures ParseInt(digits) == Some(ParseNat(digits))
  {
    assert IsDigit(digits[0]);
  }

  /** In a list without repeats every entry is found at its own index. */
  lemma {:induction false} IndexOfDistinct(names: seq<string>, p: nat)
    requires p < |names|
    requires forall i, j :: 0 <= i < j < |names| ==> names[i] != names[j]
    ensures IndexOf(names, names[p]) == Some(p)
    decreases p
  {
    if p > 0 {
      assert names[0] != names[p];
      assert names[1..][p - 1] == names[p];
      IndexOfDistinct(names[1..], p - 1);
    }
  }

  /** A name that is not in the list is not found. */
  lemma {:induction false} IndexOfMissing(names: seq<string>, x: string)
    requires x !in names
    ensures IndexOf(names, x) == None
    decreases |names|
  {
    if names != [] {
      assert x !in names[1..];
      IndexOfMissing(names[1..], x);
    }
  }

  /** The pitch-class names are pairwise distinct, so each is found at its own index. */
  lemma IndexOfNoteName(p: nat)
    requires p < 12
    ensures PitchClassOf(NoteNames[p]) == Some(p)
  {
    forall i, j | 0 <= i < j < |NoteNames|
      ensures NoteNames[i] != NoteNames[j]
    {
      var c := [2, 2, 3, 3, 4, 5, 5, 6, 6, 0, 0, 1];
      assert NoteNames[i][0] as int - 'A' as int == c[i] && NoteNames[j][0] as int - 'A' as int == c[j];
      assert |NoteNames[i]| == if i in [1, 3, 6, 8, 10] then 2 else 1;
      assert |NoteNames[j]| == if j in [1, 3, 6, 8, 10] then 2 else 1;
    }
    IndexOfDistinct(NoteNames, p);
  }

  /** Each pitch-class name is one letter, or a letter and a sharp sign. */
  lemma NoteNameShape(p: nat)
    requires p < 12
    ensures |NoteNames[p]| == 1 || (|NoteNames[p]| == 2 && NoteNames[p][1] == '#')
  {
    if p in {1, 3, 6, 8, 10} {
      assert NoteNames[1] == "C#" && NoteNames[3] == "D#" && NoteNames[6] == "F#";
      assert NoteNames[8] == "G#" && NoteNames[10] == "A#";
    } else {
      assert NoteNames[0] == "C" && NoteNames[2] == "D" && NoteNames[4] == "E" && NoteNames[5] == "F";
      assert NoteNames[7] == "G" && NoteNames[9] == "A" && NoteNames[11] == "B";
    }
  }

  /** A pitch-class name followed by a rendered integer parses into those two parts. */
  lemma ParseNoteNameOfParts(name: string, p: nat, digits: string, o: int)
    requires |name| == 1 || (|name| == 2 && name[1] == '#')
    requires PitchClassOf(name) == Some(p)
    requires |digits| >= 1 && (digits[0] == '-' || IsDigit(digits[0]))
    requires ParseInt(digits) == Some(o)
    ensures ParseNoteName(name + digits) == Some(NoteParts(p, o))
  {
    var s, k := name + digits, |name|;
    assert s[..k] == name && s[k..] == digits;
    assert k == 1 ==> s[1] == digits[0];
  }

  /** Every rendered name parses back to the pitch class n mod 12 and the printed octave. */
  lemma ParseNoteNameOfNoteName(n: int)
    ensures ParseNoteName(NoteName(n)) == Some(NoteParts(n % 12, Octave(n)))
  {
    NoteNameShape(n % 12);
    IndexOfNoteName(n % 12);
    IntToStringHead(Octave(n));
    ParseIntOfIntToString(Octave(n));
    ParseNoteNameOfParts(NoteNames[n % 12], n % 12, IntToString(Octave(n)), Octave(n));
  }

  /** 12 * (octave + 1) + pitch class gives n back exactly when n >= 12 or 12 divides n. */
  lemma OctaveRecovers(n: int)
    ensures 12 * (Octave(n) + 1) + n % 12 == n <==> (n >= 12 || n % 12 == 0)
  {
    var o, q := Octave(n), n % 12;
    assert n == 12 * (n / 12) + q && 0 <= q < 12;
    if n >= 12 {
      assert o == n / 12 - 1;
    } else if q == 0 {
      assert 12 * o < 12 * (n / 12) <= 12 * (o + 1);
      assert o < n / 12 <= o + 1;
    } else {
      assert 12 * o < n <= 12 * (o + 1);
      assert o < n / 12 + 1;
    }
  }

  /**
   * A rendered name denotes the semitone it was made from exactly when n >= 12
   * or n is a multiple of 12: below 12 the truncated octave is one too high
   * for every other n.
   */
  lemma SemitoneOfNoteName(n: int)
    ensures Semitone(NoteName(n)) == Some(n) <==> (n >= 12 || n % 12 == 0)
  {
    var s, parts := NoteName(n), NoteParts(n % 12, Octave(n));
    assert ParseNoteName(s) == Some(parts) by {
      ParseNoteNameOfNoteName(n);
    }
    SemitoneOfParsed(s, parts);
    OctaveRecovers(n);
  }

  /** The semitone of a parsed name is computed from its parts. */
  lemma SemitoneOfParsed(s: string, parts: NoteParts)
    requires ParseNoteName(s) == Some(parts)
    ensures Semitone(s) == Some(12 * (parts.octave + 1) + parts.pitchClass)
  {
  }

  /** From 12 upwards (the whole bass range) different semitones get different names. */
  lemma NoteNameInjective(n: int, m: int)
    requires n >= 12 && m >= 12
    requires NoteName(n) == NoteName(m)
    ensures n == m
  {
    SemitoneOfNoteName(n);
    SemitoneOfNoteName(m);
  }

  /** For n >= 12 the printed octave is the floor n div 12 - 1. */
  lemma OctaveIsFloor(n: int)
    requires n >= 12
    ensures Octave(n) == n / 12 - 1
  {
  }

  /** The truncating octave makes 1 and 13 render alike: both are "C#0". */
  lemma LowNotesCollide()
    ensures NoteName(1) == NoteName(13) == "C#0"
  {
    assert Octave(1) == 0 && Octave(13) == 0;
    assert IntToString(0) == "0";
  }

  /** The 440 Hz reference, semitone 69, renders as "A4"; 110 Hz (semitone 45) as "A2". */
  lemma ReferenceNames()
    ensures NoteName(69) == "A4"
    ensures NoteName(45) == "A2"
  {
    assert Octave(69) == 4 && IntToString(4) == "4";
    assert Octave(45) == 2 && IntToString(2) == "2";
  }
}
