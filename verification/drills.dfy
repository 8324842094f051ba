/**
 * The "find the fret" drill and the level handling of the main program.
 * A drill picks a string and a fret (the two random draws are parameters
 * here), prompts for the note found there, and keeps listening until the
 * player sounds exactly that note, waiting for the strings to be muted
 * after every attempt.
 */
module Drills {
  import opened Wrappers
  import opened Notes
  import opened Fretboard
  import opened Confidence

  /** A drill: the string and fret asked for, and the register word printed before the note. */
  datatype Drill = Drill(stringIdx: nat, fret: nat, prefix: string)

  /** The levels `fretFinder` knows. */
  predicate KnownLevel(level: int)
  {
    0 <= level <= 2
  }

  /** How many frets a level draws from: 0 up to (excluding) this bound. */
  function FretRange(level: int): nat
  {
    if level == 0 then 5 else if level == 1 then 13 else if level == 2 then NumFrets else 0
  }

  /** The random draws a level makes: a string in 0..3 and, for a known level, a fret below its range. */
  predicate RollsInRange(level: int, stringRoll: nat, fretRoll: nat)
  {
    stringRoll < 4 && (KnownLevel(level) ==> fretRoll < FretRange(level))
  }

  /**
   * `fretFinder`'s selection: level 0 draws frets 0..4 and prints no
   * register; levels 1 and 2 draw frets 0..12 and 0..17 and print "high "
   * from fret 12 on, "low " below it; any other level selects nothing
   * (the function reports the mistake and returns at once).
   */
  function SelectDrill(level: int, stringRoll: nat, fretRoll: nat): Option<Drill>
  {
    if level == 0 then Some(Drill(stringRoll, fretRoll, ""))
    else if level == 1 || level == 2 then Some(Drill(stringRoll, fretRoll, if fretRoll >= 12 then "high " else "low "))
    else None
  }

  /** The note a drill asks for: the table entry at its position. */
  function Target(d: Drill): string
    requires ValidPosition(d.stringIdx, d.fret)
  {
    TableDimensions();
    StringFretList[d.stringIdx][d.fret]
  }

  /** The prompt printed for a drill, e.g. "A string: low C2". */
  function Prompt(d: Drill): string
    requires ValidPosition(d.stringIdx, d.fret)
  {
    TableDimensions();
    StringList[d.stringIdx] + " string: " + d.prefix + Target(d)
  }

  /**
   * A drill is selected exactly for the known levels, and its position is
   * always on the board, within the level's fret range.
   */
  lemma SelectionOnBoard(level: int, stringRoll: nat, fretRoll: nat)
    requires RollsInRange(level, stringRoll, fretRoll)
    ensures SelectDrill(level, stringRoll, fretRoll).Some? <==> KnownLevel(level)
    ensures SelectDrill(level, stringRoll, fretRoll).Some? ==>
      var d := SelectDrill(level, stringRoll, fretRoll).value;
      ValidPosition(d.stringIdx, d.fret) && d.fret < FretRange(level) && d.fret < NumFrets
  {
  }

  /** Level 0 stays on the open string and the first four frets: its target is at most 4 semitones above the open string. */
  lemma LevelZeroNearNut(stringRoll: nat, fretRoll: nat)
    requires RollsInRange(0, stringRoll, fretRoll)
    ensures SelectDrill(0, stringRoll, fretRoll).Some?
    ensures var d := SelectDrill(0, stringRoll, fretRoll).value;
      d.prefix == "" && Semitone(Target(d)).Some? && OpenSemitones[d.stringIdx] <= Semitone(Target(d)).value <= OpenSemitones[d.stringIdx] + 4
  {
    var d := SelectDrill(0, stringRoll, fretRoll).value;
    PositionSemitone(d.stringIdx, d.fret);
  }

  /**
   * For levels 1 and 2 the register word tells the octave apart: "high "
   * exactly when the target lies an octave or more above the open string.
   */
  lemma PrefixMarksUpperOctave(level: int, stringRoll: nat, fretRoll: nat)
    requires RollsInRange(level, stringRoll, fretRoll) && (level == 1 || level == 2)
    ensures SelectDrill(level, stringRoll, fretRoll).Some?
    ensures var d := SelectDrill(level, stringRoll, fretRoll).value;
      Semitone(Target(d)).Some? &&
      (d.prefix == "high " <==> Semitone(Target(d)).value >= OpenSemitones[d.stringIdx] + 12) &&
      (d.prefix == "low " <==> Semitone(Target(d)).value < OpenSemitones[d.stringIdx] + 12)
  {
    var d := SelectDrill(level, stringRoll, fretRoll).value;
    PositionSemitone(d.stringIdx, d.fret);
  }

  /** Two texts with a common head differ if the parts after it start differently. */
  lemma DifferentAfterHead(head: string, a: string, b: string, x: string, y: string)
    requires |a| >= 1 && |b| >= 1 && a[0] != b[0]
    ensures head + a + x != head + b + y
  {
    assert (head + a + x)[|head|] == a[0];
    assert (head + b + y)[|head|] == b[0];
  }

  /**
   * The prompt identifies the position: two drills of one level with the
   * same prompt ask for the same string and fret.
   */
  lemma PromptIdentifiesPosition(level: int, s1: nat, f1: nat, s2: nat, f2: nat)
    requires RollsInRange(level, s1, f1) && RollsInRange(level, s2, f2) && KnownLevel(level)
    requires Prompt(SelectDrill(level, s1, f1).value) == Prompt(SelectDrill(level, s2, f2).value)
    ensures s1 == s2 && f1 == f2
  {
    var d1, d2 := SelectDrill(level, s1, f1).value, SelectDrill(level, s2, f2).value;
    var p1, p2 := Prompt(d1), Prompt(d2);
    assert p1[0] == StringList[s1][0] && p2[0] == StringList[s2][0];
    assert s1 == s2;
    var head := StringList[s1] + " string: ";
    assert |head| == 10;
    if d1.prefix != d2.prefix {
      DifferentAfterHead(head, d1.prefix, d2.prefix, Target(d1), Target(d2));
    } else {
      var k := 10 + |d1.prefix|;
      assert p1[k..] == Target(d1) && p2[k..] == Target(d2);
      if f1 != f2 {
        TableEntriesDistinct(s1, f1, f2);
      }
    }
  }

  /** The result of a drill session: the note of every round, whether the target was heard, and where reading stopped. */
  datatype Outcome = Outcome(heard: seq<string>, finished: bool, consumed: nat)

  /**
   * The rounds of `fretFinder` from reading `pos` on, after the notes
   * `heard`.  A round waits for a confident note (nothing ignored) and then
   * for the strings to be muted, whether the note was right or wrong.  The
   * session stops after the mute of the first round whose note is the
   * target.  When either wait runs out of readings, the session ends
   * unfinished with every reading used.
   */
  function SessionFrom(samples: seq<Option<int>>, target: string, heard: seq<string>, pos: nat): (r: Outcome)
    requires pos <= |samples|
    ensures pos <= r.consumed <= |samples|
    ensures !r.finished ==> r.consumed == |samples|
    decreases |samples| - pos
  {
    var c := FirstNote(samples, None, pos);
    if c.None? then Outcome(heard, false, |samples|)
    else
      var note := Reading(samples[c.value - 1], None).value;
      var m := FirstMute(samples, c.value);
      if m.None? then Outcome(heard + [note], false, |samples|)
      else if note == target then Outcome(heard + [note], true, m.value)
      else SessionFrom(samples, target, heard + [note], m.value)
  }

  /** A whole drill session on a stream of readings. */
  function Session(samples: seq<Option<int>>, target: string): Outcome
  {
    SessionFrom(samples, target, [], 0)
  }

  /** No confident note after `pos`: the session ends unfinished with the notes heard so far. */
  lemma {:induction false} SessionNoNote(samples: seq<Option<int>>, target: string, heard: seq<string>, pos: nat)
    requires pos <= |samples| && FirstNote(samples, None, pos) == None
    ensures SessionFrom(samples, target, heard, pos) == Outcome(heard, false, |samples|)
  {
  }

  /** A note but no mute after it: the session ends unfinished, with that note heard. */
  lemma {:induction false} SessionNoMute(samples: seq<Option<int>>, target: string, heard: seq<string>, pos: nat, c: nat, note: string)
    requires pos < c <= |samples| && FirstNote(samples, None, pos) == Some(c)
    requires Reading(samples[c - 1], None) == Some(note) && FirstMute(samples, c) == None
    ensures SessionFrom(samples, target, heard, pos) == Outcome(heard + [note], false, |samples|)
  {
  }

  /**
   * One complete round, from `pos` and the notes `heard` to `pos'` and
   * `heard'`: on the target the session is over, otherwise it goes on after
   * the mute.
   */
  lemma {:induction false} SessionRound(samples: seq<Option<int>>, target: string, heard: seq<string>, pos: nat, c: nat, note: string,
                                        hit: bool, heard': seq<string>, pos': nat)
    requires pos < c <= |samples| && FirstNote(samples, None, pos) == Some(c)
    requires Reading(samples[c - 1], None) == Some(note) && FirstMute(samples, c) == Some(pos')
    requires hit == (note == target) && heard' == heard + [note]
    ensures c < pos' <= |samples|
    ensures hit ==> SessionFrom(samples, target, heard, pos) == Outcome(heard', true, pos')
    ensures !hit ==> SessionFrom(samples, target, heard, pos) == SessionFrom(samples, target, heard', pos')
  {
  }

  /** Every note heard differs from the target. */
  predicate AllWrong(heard: seq<string>, target: string)
  {
    forall t :: 0 <= t < |heard| ==> heard[t] != target
  }

  /** Every note heard before the last one differs from the target. */
  predicate WrongBeforeLast(heard: seq<string>, target: string)
  {
    forall t :: 0 <= t < |heard| - 1 ==> heard[t] != target
  }

  /** One more note after wrong ones: wrong before the last in any case, and all wrong if it is wrong too. */
  lemma AllWrongAppend(heard: seq<string>, note: string, target: string)
    requires AllWrong(heard, target)
    ensures WrongBeforeLast(heard + [note], target)
    ensures note != target ==> AllWrong(heard + [note], target)
  {
    var all := heard + [note];
    forall t | 0 <= t < |heard|
      ensures all[t] != target
    {
      assert all[t] == heard[t];
    }
  }

  /**
   * What the retry loop promises about an outcome: every note before the
   * last is wrong, and a finished session ends on the target.
   */
  predicate RetriesUntil(r: Outcome, target: string)
  {
    WrongBeforeLast(r.heard, target) &&
    (r.finished ==> |r.heard| >= 1 && r.heard[|r.heard| - 1] == target)
  }

  /** A session retries until it hears the target, when every note heard before `pos` was wrong. */
  lemma {:induction false} SessionFromOutcome(samples: seq<Option<int>>, target: string, heard: seq<string>, pos: nat)
    requires pos <= |samples| && AllWrong(heard, target)
    ensures RetriesUntil(SessionFrom(samples, target, heard, pos), target)
    decreases |samples| - pos
  {
    var c := FirstNote(samples, None, pos);
    if c.None? {
      SessionNoNote(samples, target, heard, pos);
      assert RetriesUntil(Outcome(heard, false, |samples|), target);
    } else {
      var note := Reading(samples[c.value - 1], None).value;
      AllWrongAppend(heard, note, target);
      var m := FirstMute(samples, c.value);
      if m.None? {
        SessionNoMute(samples, target, heard, pos, c.value, note);
        assert RetriesUntil(Outcome(heard + [note], false, |samples|), target);
      } else {
        SessionRound(samples, target, heard, pos, c.value, note, note == target, heard + [note], m.value);
        if note == target {
          assert (heard + [note])[|heard|] == note;
          assert RetriesUntil(Outcome(heard + [note], true, m.value), target);
        } else {
          SessionFromOutcome(samples, target, heard + [note], m.value);
        }
      }
    }
  }

  /** A whole session retries until it hears the target. */
  lemma SessionOutcome(samples: seq<Option<int>>, target: string)
    ensures RetriesUntil(Session(samples, target), target)
  {
    SessionFromOutcome(samples, target, [], 0);
  }

  /**
   * `fretFinder`: select the drill, then repeat: prompt, wait for a
   * confident note, compare it with the target, wait for the strings to be
   * muted; stop after the round in which the target was heard.  An unknown
   * level returns at once.  `heard` is the note of every round, `finished`
   * says the function returned before the readings ran out (a real detector
   * never runs out; the program would keep waiting), `consumed` is where in
   * the stream it stopped reading.
   */
  method FretFinder(level: int, stringRoll: nat, fretRoll: nat, samples: seq<Option<int>>)
    returns (heard: seq<string>, finished: bool, consumed: nat)
    requires RollsInRange(level, stringRoll, fretRoll)
    ensures consumed <= |samples|
    ensures !KnownLevel(level) ==> heard == [] && finished && consumed == 0
    ensures KnownLevel(level) ==>
      Outcome(heard, finished, consumed) == Session(samples, Target(SelectDrill(level, stringRoll, fretRoll).value))
    ensures KnownLevel(level) ==>
      RetriesUntil(Outcome(heard, finished, consumed), Target(SelectDrill(level, stringRoll, fretRoll).value)) &&
      (!finished ==> consumed == |samples|)
  {
    var drill := SelectDrill(level, stringRoll, fretRoll);
    if drill.None? {
      return [], true, 0;
    }
    var d := drill.value;
    TableDimensions();
    ghost var target := Target(d);
    SessionOutcome(samples, target);
    var result := false;
    heard, consumed := [], 0;
    while !result
      invariant consumed <= |samples|
      invariant !result ==> Session(samples, target) == SessionFrom(samples, target, heard, consumed)
      invariant result ==> Session(samples, target) == Outcome(heard, true, consumed)
      decreases |samples| - consumed, !result
    {
      var toPlay := StringFretList[d.stringIdx][d.fret];
      assert toPlay == target;
      var played, noteEnd := WaitForNote(samples, None, consumed);
      if played.None? {
        SessionNoNote(samples, target, heard, consumed);
        return heard, false, |samples|;
      }
      if played.value == toPlay {
        result := true;
      }
      var muted, muteEnd := WaitForMute(samples, noteEnd);
      if !muted {
        SessionNoMute(samples, target, heard, consumed, noteEnd, played.value);
        return heard + [played.value], false, |samples|;
      }
      ghost var heard0, consumed0 := heard, consumed;
      heard := heard + [played.value];
      consumed := muteEnd;
      SessionRound(samples, target, heard0, consumed0, noteEnd, played.value, result, heard, consumed);
    }
    finished := true;
  }

  // ---------------------------------------------------------------------------
  // The main program's level handling

  /** `main`'s normalisation of the requested level: 0..3 are kept, anything else becomes 0. */
  function NormaliseLevel(level: int): (l: int)
    ensures 0 <= l <= 3
    ensures 0 <= level <= 3 ==> l == level
  {
    if 0 <= level <= 3 then level else 0
  }

  /** Which drill the main loop runs for a (normalised) level. */
  datatype Exercise = FindTheFret | FindTheChord

  /** Levels below 3 run `fretFinder`; the others run `chordFinder`. */
  function Route(level: int): Exercise
  {
    if level < 3 then FindTheFret else FindTheChord
  }

  /**
   * After normalisation the chord exercise runs for level 3 alone, and the
   * fret exercise is only ever given a level it knows, so its
   * unknown-level branch is unreachable from the main program.
   */
  lemma RoutingAfterNormalising(level: int)
    ensures Route(NormaliseLevel(level)) == FindTheChord <==> level == 3
    ensures Route(NormaliseLevel(level)) == FindTheFret ==> KnownLevel(NormaliseLevel(level))
    ensures NormaliseLevel(level) == 0 <==> (level == 0 || level < 0 || level > 3)
  {
  }
}
