# bassBot in Dafny

A model of the core of `bassBot.py`, a bass-guitar practice bot. The bot prompts for a note on a
given string, listens to the microphone through a pitch detector, and waits until the player has
sounded the note with confidence and then muted the strings. The model covers:

- **Notes** (`notes.dfy`): `note_name`, which turns a semitone number (MIDI numbering, A4 = 69)
  into a pitch-class name plus an octave number. The octave is Python's `int()` of
  `n/12 - 1`, so it is truncated toward zero. A parser `ParseNoteName` / `Semitone` reads names
  back and is the partner that the round-trip properties are stated against.
- **Fretboard** (`fretboard.dfy`): the per-string note tables for the E, A, D and G strings
  (frets 0..18), the string names, and the unused low-B table.
- **Chords** (`chords.dfy`): the four chord shapes as (string, fret) offsets, and
  `chordFinder`'s resolution of the five chord tones at its fixed root (string 0, fret 8).
- **Confidence** (`confidence.dfy`): the two filters between the detector and the drills.
  `waitForNote` skips silent and ignored readings, keeps the newest accepted names first in a
  buffer, and reports a note once the last five accepted names agree. `waitForMute` returns once
  the last five readings are silent. Both are imperative methods over the same buffer
  discipline as the source: insert at the front, count, pop the oldest. Each reads the stream
  from a given position and returns where it stopped. Each is proved against a declarative
  description, `NoteConfirmedAt` / `MutedAt`: the method stops at the first point where that
  description holds, which the functions `FirstNote` / `FirstMute` name.
- **Drills** (`drills.dfy`): `fretFinder`'s level-dependent choice of string, fret and
  register word, its retry loop, and `main`'s level normalisation and routing. The retry loop
  is proved against `Session`, a function that plays the rounds out on the stream: each round
  is the next confident note from `FirstNote`, then the next mute from `FirstMute`.

A detector reading is an `Option<int>`. `None` is a pitch of exactly 0.0. `Some(n)` is a pitch
whose frequency rounds to semitone `n`. The microphone is a finite sequence of such readings
given up front and read from a position onward, so consecutive waits share one stream. When the
sequence runs out, the result says so; the program itself would keep waiting.

Where the source's comments and its code disagree, the model follows the code:

- The comment above `fretFinder` (bassBot.py:194-199) describes four levels: open strings only,
  up to fret 4, up to 12, and up to 18. The code (bassBot.py:211-230) does something else:
  - level 0 draws frets 0..4 with no register word;
  - level 1 draws frets 0..12;
  - level 2 draws frets 0..17;
  - any other level returns at once.
- The low-B table's last entry is spelt "E#2". No other name the program produces has that
  spelling, and `note_name` would give "F2" there (`BNotesLastEntry`, `ESharpHasNoSemitone`).
  Nothing in the program reads that table.

## Model

| member | source | states |
|---|---|---|
| Notes.Octave | bassBot.py:57 | the printed octave brackets n: from 12 up it is the floor n/12 - 1; below 12 truncation rounds it up |
| Notes.NoteName | bassBot.py:57 | pitch class NoteNames[n mod 12] followed by the truncated octave; its meaning is stated by ParseNoteNameOfNoteName, SemitoneOfNoteName and NoteNameInjective |
| Notes.ParseIntOfIntToString | bassBot.py:57 | the octave text `str` prints reads back as the same integer, negative octaves included |
| Notes.IndexOfNoteName | bassBot.py:19 | the twelve pitch-class names are distinct, so each name is found at its own index |
| Notes.ParseNoteNameOfNoteName | bassBot.py:57 | every name `note_name` renders parses back into its pitch class n mod 12 and its printed octave |
| Notes.OctaveRecovers | bassBot.py:57 | 12 * (octave + 1) + pitch class gives n back exactly when n >= 12 or 12 divides n |
| Notes.SemitoneOfNoteName | bassBot.py:57 | reading a rendered name back gives the original semitone if and only if n >= 12 or n is a multiple of 12 |
| Notes.NoteNameInjective | bassBot.py:57 | on semitones 12 and up, different semitones get different names |
| Notes.OctaveIsFloor | bassBot.py:57 | for n >= 12 the truncated octave equals the floor n div 12 - 1 |
| Notes.LowNotesCollide | bassBot.py:57 | the truncation makes semitones 1 and 13 both render as "C#0" |
| Notes.ReferenceNames | bassBot.py:55-57 | semitone 69 (440 Hz) is "A4" and semitone 45 is "A2" |
| Fretboard.TableDimensions | bassBot.py:25-35 | four string tables, each with NUM_FRETS + 1 entries, and four string names |
| Fretboard.EChromatic | bassBot.py:29 | entry f of the E table is the name of semitone 28 + f |
| Fretboard.AChromatic | bassBot.py:28 | entry f of the A table is the name of semitone 33 + f |
| Fretboard.DChromatic | bassBot.py:27 | entry f of the D table is the name of semitone 38 + f |
| Fretboard.GChromatic | bassBot.py:26 | entry f of the G table is the name of semitone 43 + f |
| Fretboard.TablesAreChromatic | bassBot.py:26-35 | entry [s][f] of the string/fret table is the name of open-string semitone s plus f |
| Fretboard.PositionName | bassBot.py:33-35 | a valid (string, fret) position looks up the name of open + fret |
| Fretboard.PositionSemitone | bassBot.py:26-35 | the name at a position reads back as the semitone open + fret |
| Fretboard.StringsAFourthApart | bassBot.py:26-29 | open strings are E1, A1, D2, G2: 28 + 5 * string |
| Fretboard.FretDistance | bassBot.py:26-29 | along one string two frets are exactly their fret difference apart in semitones |
| Fretboard.TableEntriesDistinct | bassBot.py:26-29 | distinct frets of one string never carry the same name |
| Fretboard.EStringThirdFret | bassBot.py:33-35 | position [0][3] is a G1, as the table's comment says |
| Fretboard.BNotesChromaticPrefix | bassBot.py:30 | the first 18 entries of the low-B table are the names of semitones 23 onward |
| Fretboard.BNotesLastEntry | bassBot.py:30 | the last low-B entry is "E#2" where the chromatic name would be "F2" |
| Fretboard.ESharpHasNoSemitone | bassBot.py:30 | "E#2" is not a note name and denotes no semitone |
| Chords.ShapeIntervals | bassBot.py:47-50 | the shapes' intervals above the root: maj7 4 7 11 12, dom7 4 7 10 12, m7 3 7 10 12, m7b5 3 6 10 12 |
| Chords.CatalogShapesAscending | bassBot.py:47-50 | every shape's tones climb strictly, at most an octave above the root |
| Chords.ShapeStaysOnBoard | bassBot.py:173-177 | any shape on a root at string 0..1, fret 2..12 only touches valid positions |
| Chords.TonePosition | bassBot.py:181-186 | tone 0 is played at the root, tone i at the root moved by the shape's offset i - 1; that these positions are on the board is stated by ShapeStaysOnBoard |
| Chords.ToneName | bassBot.py:181-186 | the table entry at tone i's position; ToneSemitone states it is the name of the root's semitone plus the shape's i-th interval |
| Chords.ChordToneNames | bassBot.py:170-172 | a chord has five tone names |
| Chords.ToneSemitone | bassBot.py:182-186 | chord tone i sounds the root's semitone plus the shape's i-th interval |
| Chords.ToneNamesDiffer | bassBot.py:182-186 | two tones of an ascending shape have different names |
| Chords.ChordTonesDistinct | bassBot.py:182-186 | the five tones of any catalog shape are pairwise different names |
| Chords.FixedRootMajor7 | bassBot.py:178-186 | the fixed root with the major-seventh shape is on the board and gives C2 E2 G2 B2 C3 |
| Chords.ResolveChordTones | bassBot.py:169-186 | filling the five slots yields exactly the chord-tone names at that root, the first being the root |
| Chords.ChordFinder | bassBot.py:168-190 | root C2, tones C2 E2 G2 B2 C3, result 0, for every level |
| Confidence.Count | bassBot.py:136 | `list.count` is never more than the length; CountAll states when it equals the length |
| Confidence.CountAll | bassBot.py:136 | `count(x) == len` holds exactly when every entry is x |
| Confidence.Reading | bassBot.py:121-128 | a silent reading and the ignored name are skipped, anything else gives its note name; AcceptedAvoidsIgnore and ConfirmedNote state what gets through |
| Confidence.Accepted | bassBot.py:121-129 | the names pushed from the readings between two positions, oldest first; AcceptedGrowth, AcceptedAvoidsIgnore and AcceptedRun state its properties |
| Confidence.AcceptedAvoidsIgnore | bassBot.py:127-128 | no accepted name is the ignored one |
| Confidence.AcceptedGrowth | bassBot.py:121-129 | each reading adds at most one accepted name |
| Confidence.ConfirmedNote | bassBot.py:124-137 | a confirmed note is the name of the reading that completed the run, and never the ignored name |
| Confidence.ExtendNoteUnconfirmed | bassBot.py:131-138 | a reading that does not confirm extends the prefix with no confirmation |
| Confidence.FirstNoteUpTo | bassBot.py:116-137 | a confirmation point it reports lies after the start, within range, at a sounding reading |
| Confidence.FirstNoteUpToSpec | bassBot.py:116-137 | the point reported is confirmed and no earlier one is; none is reported only when no point in range is confirmed |
| Confidence.FirstNoteUpToStable | bassBot.py:116-137 | once a first confirmation point is found, reading further does not change it |
| Confidence.NewestFirstPush | bassBot.py:129 | inserting at index 0 keeps the buffer newest-first |
| Confidence.NewestFirstPop | bassBot.py:138 | popping the oldest entry keeps it newest-first |
| Confidence.BufferDecides | bassBot.py:131-137 | with the newest five in the buffer, counting decides whether the last five agree |
| Confidence.NoteBufferSkip | bassBot.py:122-128 | a silent or ignored reading leaves the buffer unchanged and still correct |
| Confidence.NoteBufferGrow | bassBot.py:129-131 | a name pushed onto a buffer of fewer than four keeps it correct, with no confirmation yet |
| Confidence.NoteBufferConfirm | bassBot.py:129-137 | a full buffer whose every entry is the new name: the last five accepted names agree and this is the first confirmation point |
| Confidence.NoteBufferDrop | bassBot.py:129-138 | a full buffer holding another name: not confirmed here, and popping the oldest puts the buffer back in shape |
| Confidence.NoteBufferEnd | bassBot.py:116-138 | a buffer kept to the end of the readings means no confirmation point exists |
| Confidence.WaitForNote | bassBot.py:110-138 | returns the reading's note at the first point where the last five accepted names agree, and none before it; None only when the readings run out without that point; the position returned is FirstNote |
| Confidence.ExtendMuteUnconfirmed | bassBot.py:159-166 | a reading that does not finish the mute wait extends the prefix with no mute |
| Confidence.FirstMuteUpTo | bassBot.py:152-165 | a mute point it reports lies after the start and within range |
| Confidence.FirstMuteUpToSpec | bassBot.py:152-165 | the point reported is muted and no earlier one is; none is reported only when no point in range is muted |
| Confidence.FirstMuteUpToStable | bassBot.py:152-165 | once a first mute point is found, reading further does not change it |
| Confidence.WaitForMute | bassBot.py:146-166 | returns at the first point where the last five readings are silent, and at no earlier one; not muted only when the readings run out; the position returned is FirstMute |
| Confidence.NoteAndMuteExclusive | bassBot.py:110-166 | the two filters never fire after the same reading |
| Confidence.AcceptedRun | bassBot.py:121-129 | a run of j readings of one non-ignored note ends the accepted names with j copies of its name |
| Confidence.RunConfirms | bassBot.py:110-138 | five consecutive readings of one non-ignored note make `waitForNote` confident at the last of them |
| Confidence.SilenceIsSkipped | bassBot.py:121-123 | two silent readings then five A2 readings confirm A2 after seven readings and not before |
| Drills.SelectDrill | bassBot.py:207-230 | level 0: frets 0..4, no register word; levels 1 and 2: "high " from fret 12 on, "low " below; any other level: no drill; SelectionOnBoard, LevelZeroNearNut and PrefixMarksUpperOctave state its properties |
| Drills.Target | bassBot.py:234 | the table entry at the drill's position; LevelZeroNearNut and PrefixMarksUpperOctave state which semitone it names |
| Drills.Prompt | bassBot.py:235 | string name, " string: ", register word, target; PromptIdentifiesPosition states that it determines the position |
| Drills.SelectionOnBoard | bassBot.py:207-230 | a drill is chosen exactly for levels 0..2, always at a valid position within the level's fret range |
| Drills.LevelZeroNearNut | bassBot.py:211-213 | level 0 has no register word and stays within 4 semitones of the open string |
| Drills.PrefixMarksUpperOctave | bassBot.py:214-227 | at levels 1 and 2, "high " is printed exactly when the target is an octave or more above the open string |
| Drills.PromptIdentifiesPosition | bassBot.py:234-235 | two drills of one level with the same prompt are at the same string and fret |
| Drills.SessionFrom | bassBot.py:233-249 | a session from a position stops within the stream, and an unfinished one has used every reading |
| Drills.SessionNoNote | bassBot.py:238 | no confident note left: the session ends unfinished with the notes heard so far |
| Drills.SessionNoMute | bassBot.py:238-249 | a note but no mute after it: the session ends unfinished with that note heard |
| Drills.SessionRound | bassBot.py:233-249 | one round: the target ends the session after its mute, a wrong note starts the next round after the mute |
| Drills.AllWrongAppend | bassBot.py:240-248 | after wrong notes, one more note keeps every earlier one wrong, and a wrong one keeps them all wrong |
| Drills.SessionFromOutcome | bassBot.py:233-249 | every note heard before the last is wrong, and a finished session ends on the target |
| Drills.SessionOutcome | bassBot.py:233-249 | the same for a whole session from the start of the stream |
| Drills.FretFinder | bassBot.py:201-251 | unknown level: returns at once; otherwise the notes heard, whether it finished and where it stopped are exactly the session the readings give for the drill's target, so every wrong note is followed by another round and a finished drill ends on the target |
| Drills.NormaliseLevel | bassBot.py:271-284 | the level ends up in 0..3, unchanged when it already was |
| Drills.Route | bassBot.py:310-315 | levels below 3 run the fret exercise, the rest the chord exercise; RoutingAfterNormalising states what the main program sends where |
| Drills.RoutingAfterNormalising | bassBot.py:271-315 | the chord exercise runs for level 3 alone; the fret exercise only ever receives a level it knows; every out-of-range level becomes 0 |

## Left out

- `AudioHandler` (bassBot.py:70-100): microphone, aubio pitch detection and volume. Readings are a
  parameter, and the volume is unused by the modelled code.
- `freq_to_number`, `number_to_freq` and `round` (bassBot.py:55-56, 124-125) are floating-point
  maths. A reading is given directly as its rounded semitone.
- Random draws (bassBot.py:208, 212, 215, 223) are parameters `stringRoll` and `fretRoll`, assumed
  to lie in the range `randrange` gives.
- Drills.FretFinder: returns the notes heard, whether it finished, and where in the stream it stopped,
  instead of the elapsed wall-clock time (bassBot.py:205, 242-243, 251). Clocks are not modelled.
- Printing (prompts, "correct!", "wrongzo!", level banners) and argparse with the verbose modes
  (bassBot.py:262-308) are output and argument handling only.
- `main`'s outer `while True` loop (bassBot.py:286-322): apart from the routing that Route models,
  it repeats `fretFinder`, collects the elapsed times and prints their average on Ctrl-C. Its
  vverbose branch (bassBot.py:289-308) only prints each reading as telemetry. At level 3 it calls
  `chordFinder` once and returns (bassBot.py:313-315); the model has Route choose the chord
  exercise and does not model the return.
- Blocking: a real detector never runs out of readings. The model's streams are finite, and
  running out is reported as `None` / not muted / not finished.
- `chordFinder`'s `level` and audio-handler arguments are unused by the source and have no
  effect in the model.
