/**
 * Chord shapes and the resolution of a chord's five tones (root plus four
 * shape offsets) through the fretboard tables, as `chordFinder` does it.
 */
module Chords {
  import opened Wrappers
  import opened Notes
  import opened Fretboard

  /** A chord-tone position relative to the root: strings up, frets up (negative is down). */
  datatype Offset = Offset(stringStep: int, fretStep: int)

  const Major7Shape: seq<Offset> := [Offset(1, -1), Offset(1, 2), Offset(2, 1), Offset(2, 2)]
  const Dom7Shape: seq<Offset> := [Offset(1, -1), Offset(1, 2), Offset(2, 0), Offset(2, 2)]
  const Minor7Shape: seq<Offset> := [Offset(1, -2), Offset(1, 2), Offset(2, 0), Offset(2, 2)]
  const Minor7Flat5Shape: seq<Offset> := [Offset(1, -2), Offset(1, 1), Offset(2, 0), Offset(2, 2)]

  /** The four shapes of the catalog. */
  const Shapes: seq<seq<Offset>> := [Major7Shape, Dom7Shape, Minor7Shape, Minor7Flat5Shape]

  /** Semitones an offset adds to the root: each string up is a fourth (5), each fret one. */
  function Interval(o: Offset): int
  {
    5 * o.stringStep + o.fretStep
  }

  /** Interval of chord tone i above the root: 0 for the root itself, then the shape's offsets. */
  function ToneInterval(shape: seq<Offset>, i: nat): int
    requires i <= |shape|
  {
    if i == 0 then 0 else Interval(shape[i - 1])
  }

  /** The roots the drills are meant to use: string 0 or 1, fret 2 to 12. */
  predicate RootInRange(stringIdx: int, fret: int)
  {
    0 <= stringIdx <= 1 && 2 <= fret <= 12
  }

  /** The shapes' intervals: maj7 = 4 7 11 12, dom7 = 4 7 10 12, m7 = 3 7 10 12, m7b5 = 3 6 10 12. */
  lemma ShapeIntervals()
    ensures [ToneInterval(Major7Shape, 1), ToneInterval(Major7Shape, 2), ToneInterval(Major7Shape, 3), ToneInterval(Major7Shape, 4)] == [4, 7, 11, 12]
    ensures [ToneInterval(Dom7Shape, 1), ToneInterval(Dom7Shape, 2), ToneInterval(Dom7Shape, 3), ToneInterval(Dom7Shape, 4)] == [4, 7, 10, 12]
    ensures [ToneInterval(Minor7Shape, 1), ToneInterval(Minor7Shape, 2), ToneInterval(Minor7Shape, 3), ToneInterval(Minor7Shape, 4)] == [3, 7, 10, 12]
    ensures [ToneInterval(Minor7Flat5Shape, 1), ToneInterval(Minor7Flat5Shape, 2), ToneInterval(Minor7Flat5Shape, 3), ToneInterval(Minor7Flat5Shape, 4)] == [3, 6, 10, 12]
  {
  }

  /** A shape whose four tones climb strictly above the root, at most an octave up. */
  predicate Ascending(shape: seq<Offset>)
  {
    |shape| == 4 &&
    forall i, j :: 0 <= i < j <= 4 ==> 0 <= ToneInterval(shape, i) < ToneInterval(shape, j) <= 12
  }

  /** Every catalog shape is ascending. */
  lemma CatalogShapesAscending(shape: seq<Offset>)
    requires shape in Shapes
    ensures Ascending(shape)
  {
    ShapeIntervals();
  }

  /**
   * Every catalog shape applied to a root on string 0..1, fret 2..12 stays on
   * the board: string index within 0..3 and fret index within 0..NumFrets.
   */
  lemma ShapeStaysOnBoard(shape: seq<Offset>, stringIdx: int, fret: int)
    requires shape in Shapes && RootInRange(stringIdx, fret)
    ensures OnBoard(stringIdx, fret, shape)
  {
  }

  /** Where chord tone i is played: the root for i = 0, otherwise the root moved by offset i - 1. */
  function TonePosition(stringIdx: int, fret: int, shape: seq<Offset>, i: nat): (int, int)
    requires i <= |shape|
  {
    if i == 0 then (stringIdx, fret)
    else (stringIdx + shape[i - 1].stringStep, fret + shape[i - 1].fretStep)
  }

  /** Every tone of the shape at this root lies on the board. */
  predicate OnBoard(stringIdx: int, fret: int, shape: seq<Offset>)
  {
    |shape| == 4 && ValidPosition(stringIdx, fret) &&
    forall k :: 0 <= k < 4 ==> ValidPosition(stringIdx + shape[k].stringStep, fret + shape[k].fretStep)
  }

  /** The name of chord tone i, looked up in the fretboard tables. */
  function ToneName(stringIdx: int, fret: int, shape: seq<Offset>, i: nat): string
    requires i <= 4 && OnBoard(stringIdx, fret, shape)
  {
    TableDimensions();
    var pos := TonePosition(stringIdx, fret, shape, i);
    StringFretList[pos.0][pos.1]
  }

  /** The five chord-tone names of a shape at a root, root first. */
  function ChordToneNames(stringIdx: int, fret: int, shape: seq<Offset>): (tones: seq<string>)
    requires OnBoard(stringIdx, fret, shape)
    ensures |tones| == 5
  {
    [ToneName(stringIdx, fret, shape, 0), ToneName(stringIdx, fret, shape, 1), ToneName(stringIdx, fret, shape, 2),
     ToneName(stringIdx, fret, shape, 3), ToneName(stringIdx, fret, shape, 4)]
  }

  /** Tone i sounds the root's semitone plus the shape's i-th interval. */
  lemma ToneSemitone(stringIdx: int, fret: int, shape: seq<Offset>, i: nat)
    requires i <= 4 && OnBoard(stringIdx, fret, shape)
    ensures Semitone(ToneName(stringIdx, fret, shape, i)) == Some(OpenSemitones[stringIdx] + fret + ToneInterval(shape, i))
  {
    var pos := TonePosition(stringIdx, fret, shape, i);
    var s, f := pos.0, pos.1;
    assert OpenSemitones[s] + f == OpenSemitones[stringIdx] + fret + ToneInterval(shape, i) by {
      StringsAFourthApart(stringIdx);
      StringsAFourthApart(s);
    }
    PositionSemitone(s, f);
  }

  /** Two tones of an ascending shape sound different semitones, so their names differ. */
  lemma ToneNamesDiffer(stringIdx: int, fret: int, shape: seq<Offset>, i: nat, j: nat)
    requires OnBoard(stringIdx, fret, shape) && Ascending(shape) && i < j <= 4
    ensures ToneName(stringIdx, fret, shape, i) != ToneName(stringIdx, fret, shape, j)
  {
    var a, b := ToneName(stringIdx, fret, shape, i), ToneName(stringIdx, fret, shape, j);
    var base := OpenSemitones[stringIdx] + fret;
    ToneSemitone(stringIdx, fret, shape, i);
    ToneSemitone(stringIdx, fret, shape, j);
    assert ToneInterval(shape, i) < ToneInterval(shape, j);
    assert Semitone(a) != Semitone(b);
  }

  /** The five tones of an ascending shape are five different names. */
  lemma ChordTonesDistinct(stringIdx: int, fret: int, shape: seq<Offset>)
    requires OnBoard(stringIdx, fret, shape) && Ascending(shape)
    ensures forall i, j :: 0 <= i < j < 5 ==> ChordToneNames(stringIdx, fret, shape)[i] != ChordToneNames(stringIdx, fret, shape)[j]
  {
    var tones := ChordToneNames(stringIdx, fret, shape);
    forall i, j | 0 <= i < j < 5
      ensures tones[i] != tones[j]
    {
      assert tones[i] == ToneName(stringIdx, fret, shape, i) && tones[j] == ToneName(stringIdx, fret, shape, j);
      ToneNamesDiffer(stringIdx, fret, shape, i, j);
    }
  }

  /** The fixed root of `chordFinder`, string 0 fret 8, with the major-seventh shape: C2 E2 G2 B2 C3. */
  lemma FixedRootMajor7()
    ensures OnBoard(0, 8, Major7Shape)
    ensures ChordToneNames(0, 8, Major7Shape) == ["C2", "E2", "G2", "B2", "C3"]
  {
    ShapeStaysOnBoard(Major7Shape, 0, 8);
  }

  /**
   * `chordFinder`'s tone resolution: a five-slot list of empty names is filled
   * with the root's name and then the name at each of the four shape offsets.
   */
  method ResolveChordTones(stringIdx: int, fret: int, shape: seq<Offset>) returns (chordRoot: string, chordTones: seq<string>)
    requires OnBoard(stringIdx, fret, shape)
    ensures chordTones == ChordToneNames(stringIdx, fret, shape)
    ensures chordRoot == chordTones[0]
  {
    chordTones := [];
    for i := 0 to 5
      invariant chordTones == seq(i, _ => "")
    {
      chordTones := chordTones + [""];
    }
    TableDimensions();
    chordRoot := StringFretList[stringIdx][fret];
    chordTones := chordTones[0 := StringFretList[stringIdx][fret]];
    chordTones := chordTones[1 := StringFretList[stringIdx + shape[0].stringStep][fret + shape[0].fretStep]];
    chordTones := chordTones[2 := StringFretList[stringIdx + shape[1].stringStep][fret + shape[1].fretStep]];
    chordTones := chordTones[3 := StringFretList[stringIdx + shape[2].stringStep][fret + shape[2].fretStep]];
    chordTones := chordTones[4 := StringFretList[stringIdx + shape[3].stringStep][fret + shape[3].fretStep]];
  }

  /**
   * `chordFinder`: the root is fixed at string 0, fret 8 (a C2) and the shape
   * is the major seventh, so the tones are C2 E2 G2 B2 C3.  The level is not
   * consulted and the result is always 0.
   */
  method ChordFinder(level: int) returns (chordRoot: string, chordTones: seq<string>, r: int)
    ensures chordRoot == "C2"
    ensures chordTones == ["C2", "E2", "G2", "B2", "C3"]
    ensures r == 0
  {
    var stringIdx, fret := 0, 8;
    FixedRootMajor7();
    chordRoot, chordTones := ResolveChordTones(stringIdx, fret, Major7Shape);
    r := 0;
  }
}
