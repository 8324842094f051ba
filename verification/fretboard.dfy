/**
 * The fretboard tables of a four-string bass in standard tuning (E1 A1 D2 G2)
 * and the four chord shapes, each given as (string, fret) offsets from a root.
 */
module Fretboard {
  import opened Wrappers
  import opened Notes

  /** Highest fret the tables cover; each table has NumFrets + 1 entries, fret 0 being the open string. */
  const NumFrets: nat := 18

  const GNotes: seq<string> := ["G2", "G#2", "A2", "A#2", "B2", "C3", "C#3", "D3", "D#3", "E3", "F3", "F#3", "G3", "G#3", "A3", "A#3", "B3", "C4", "C#4"]
  const DNotes: seq<string> := ["D2", "D#2", "E2", "F2", "F#2", "G2", "G#2", "A2", "A#2", "B2", "C3", "C#3", "D3", "D#3", "E3", "F3", "F#3", "G3", "G#3"]
  const ANotes: seq<string> := ["A1", "A#1", "B1", "C2", "C#2", "D2", "D#2", "E2", "F2", "F#2", "G2", "G#2", "A2", "A#2", "B2", "C3", "C#3", "D3", "D#3"]
  const ENotes: seq<string> := ["E1", "F1", "F#1", "G1", "G#1", "A1", "A#1", "B1", "C2", "C#2", "D2", "D#2", "E2", "F2", "F#2", "G2", "G#2", "A2", "A#2"]
  /** A low-B table that nothing else uses; its last entry is spelt "E#2". */
  const BNotes: seq<string> := ["B0", "C1", "C#1", "D1", "D#1", "E1", "F1", "F#1", "G1", "G#1", "A1", "A#1", "B1", "C2", "C#2", "D2", "D#2", "E2", "E#2"]

  /** String names, lowest string first. */
  const StringList: seq<string> := ["E", "A", "D", "G"]

  /** The note tables indexed by [string][fret]; [0][3] is the E string, third fret, a G1. */
  const StringFretList: seq<seq<string>> := [ENotes, ANotes, DNotes, GNotes]

  /** Semitone number of each open string (E1 = 28, A1 = 33, D2 = 38, G2 = 43). */
  const OpenSemitones: seq<int> := [28, 33, 38, 43]

  /** A (string, fret) pair the tables have an entry for. */
  predicate ValidPosition(stringIdx: int, fret: int)
  {
    0 <= stringIdx < 4 && 0 <= fret <= NumFrets
  }

  /** Four tables of NumFrets + 1 entries each: every valid position can be looked up. */
  lemma TableDimensions()
    ensures |StringFretList| == |OpenSemitones| == |StringList| == 4
    ensures forall s :: 0 <= s < 4 ==> |StringFretList[s]| == NumFrets + 1
  {
  }

  lemma EChromatic()
    ensures |ENotes| == NumFrets + 1 && forall f :: 0 <= f <= NumFrets ==> ENotes[f] == NoteName(28 + f)
  {
  }

  lemma AChromatic()
    ensures |ANotes| == NumFrets + 1 && forall f :: 0 <= f <= NumFrets ==> ANotes[f] == NoteName(33 + f)
  {
  }

  lemma DChromatic()
    ensures |DNotes| == NumFrets + 1 && forall f :: 0 <= f <= NumFrets ==> DNotes[f] == NoteName(38 + f)
  {
  }

  lemma GChromatic()
    ensures |GNotes| == NumFrets + 1 && forall f :: 0 <= f <= NumFrets ==> GNotes[f] == NoteName(43 + f)
  {
  }

  /**
   * Each table walks up chromatically from its open string: entry f is the name
   * of semitone open + f, and every table has NumFrets + 1 entries.
   */
  lemma TablesAreChromatic()
    ensures |StringFretList| == |OpenSemitones| == |StringList| == 4
    ensures forall s, f :: 0 <= s < 4 && 0 <= f <= NumFrets ==>
      |StringFretList[s]| == NumFrets + 1 && StringFretList[s][f] == NoteName(OpenSemitones[s] + f)
  {
    EChromatic();
    AChromatic();
    DChromatic();
    GChromatic();
  }

  /** Position lookup in terms of note naming: the [string][fret] entry names open + fret. */
  lemma PositionName(stringIdx: int, fret: int)
    requires ValidPosition(stringIdx, fret)
    ensures fret <= NumFrets
    ensures StringFretList[stringIdx][fret] == NoteName(OpenSemitones[stringIdx] + fret)
  {
    TablesAreChromatic();
  }

  /** The semitone a position sounds: open string plus fret. */
  lemma PositionSemitone(stringIdx: int, fret: int)
    requires ValidPosition(stringIdx, fret)
    ensures Semitone(StringFretList[stringIdx][fret]) == Some(OpenSemitones[stringIdx] + fret)
  {
    var n := OpenSemitones[stringIdx] + fret;
    var name := StringFretList[stringIdx][fret];
    assert name == NoteName(n) && n >= 12 by {
      PositionName(stringIdx, fret);
    }
    assert Semitone(NoteName(n)) == Some(n) by {
      SemitoneOfNoteName(n);
    }
  }

  /** Adjacent strings are tuned a fourth (5 semitones) apart. */
  lemma StringsAFourthApart(stringIdx: int)
    requires 0 <= stringIdx < 4
    ensures OpenSemitones[stringIdx] == 28 + 5 * stringIdx
  {
  }

  /** Along one string, two frets are exactly as many semitones apart as their fret numbers. */
  lemma FretDistance(stringIdx: int, f1: int, f2: int)
    requires ValidPosition(stringIdx, f1) && ValidPosition(stringIdx, f2)
    ensures Semitone(StringFretList[stringIdx][f1]).Some? && Semitone(StringFretList[stringIdx][f2]).Some?
    ensures Semitone(StringFretList[stringIdx][f2]).value - Semitone(StringFretList[stringIdx][f1]).value == f2 - f1
  {
    PositionSemitone(stringIdx, f1);
    PositionSemitone(stringIdx, f2);
  }

  /** Strictly ascending: distinct frets of one string never name the same note. */
  lemma TableEntriesDistinct(stringIdx: int, f1: int, f2: int)
    requires ValidPosition(stringIdx, f1) && ValidPosition(stringIdx, f2) && f1 != f2
    ensures StringFretList[stringIdx][f1] != StringFretList[stringIdx][f2]
  {
    FretDistance(stringIdx, f1, f2);
  }

  /** The example in the table's comment: string 0, fret 3 is a G1. */
  lemma EStringThirdFret()
    ensures StringFretList[0][3] == "G1"
  {
  }

  /** The unused low-B table follows the chromatic walk up from B0 (semitone 23) ... */
  lemma BNotesChromaticPrefix()
    ensures |BNotes| == NumFrets + 1
    ensures forall f :: 0 <= f < NumFrets ==> BNotes[f] == NoteName(23 + f)
  {
  }

  /** ... except its last entry, "E#2", which is not a name NoteName produces (it would be "F2") ... */
  lemma BNotesLastEntry()
    ensures BNotes[NumFrets] == "E#2" && NoteName(23 + NumFrets) == "F2"
  {
    assert Octave(41) == 2 && IntToString(2) == "2";
  }

  /** ... and that the parser rejects, so it denotes no semitone at all. */
  lemma ESharpHasNoSemitone()
    ensures Semitone("E#2") == None
  {
    var s := "E#2";
    assert |s| >= 2 && s[1] == '#' && s[..2] == "E#";
    assert "E#" !in NoteNames;
    IndexOfMissing(NoteNames, "E#");
  }
}
