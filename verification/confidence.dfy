/**
 * The two confidence filters that sit between the pitch detector and the
 * drills.  `waitForNote` reports a note once the last ConfidenceLevel
 * accepted readings all name it; `waitForMute` returns once the last
 * ConfidenceLevel readings are all silent.
 *
 * A reading of the detector is abstracted as an `Option<int>`: `None` is a
 * pitch of exactly 0.0 (nothing detected), `Some(n)` is a detected pitch
 * whose frequency rounds to semitone n.  The detector itself is a stream
 * of such readings, given up front; a stream that runs out models a
 * detector that never settles.
 */
module Confidence {
  import opened Wrappers
  import opened Notes

  /** Consecutive agreeing readings both filters need. */
  const ConfidenceLevel: nat := 5

  /** Occurrences of x in s, as Python's `list.count`. */
  function Count<T(==)>(s: seq<T>, x: T): (c: nat)
    ensures c <= |s|
  {
    if s == [] then 0 else (if s[0] == x then 1 else 0) + Count(s[1..], x)
  }

  /** The count equals the length exactly when every element is x. */
  lemma {:induction false} CountAll<T>(s: seq<T>, x: T)
    ensures Count(s, x) == |s| <==> forall t :: 0 <= t < |s| ==> s[t] == x
  {
    if s != [] {
      CountAll(s[1..], x);
      assert forall t :: 1 <= t < |s| ==> s[t] == s[1..][t - 1];
    }
  }

  // ---------------------------------------------------------------------------
  // waitForNote

  /**
   * What `waitForNote` makes of one reading: nothing for silence, nothing for
   * the note it was told to ignore, otherwise the reading's note name.
   */
  function Reading(sample: Option<int>, ignore: Option<string>): Option<string>
  {
    match sample
    case None => None
    case Some(n) => if Some(NoteName(n)) == ignore then None else Some(NoteName(n))
  }

  function OptionToSeq<T>(o: Option<T>): seq<T>
  {
    match o
    case None => []
    case Some(v) => [v]
  }

  /**
   * The names `waitForNote` accepts from readings `from` up to (excluding)
   * c of a stream, oldest first; `from` is where the call started reading.
   */
  function Accepted(samples: seq<Option<int>>, ignore: Option<string>, from: nat, c: nat): seq<string>
    requires from <= c <= |samples|
    decreases c
  {
    if c == from then []
    else Accepted(samples, ignore, from, c - 1) + OptionToSeq(Reading(samples[c - 1], ignore))
  }

  /** The last k items are all x (and there are at least k of them). */
  predicate LastAll<T(==)>(items: seq<T>, k: nat, x: T)
  {
    k <= |items| && forall t :: |items| - k <= t < |items| ==> items[t] == x
  }

  /** The last k names agree (and there are at least k of them). */
  predicate LastAgree(names: seq<string>, k: nat)
  {
    1 <= k <= |names| && LastAll(names, k, names[|names| - 1])
  }

  /**
   * A `waitForNote` that started at reading `from` is confident after
   * reading c - 1: that reading was accepted and it completes a run of k
   * agreeing accepted names.
   */
  predicate NoteConfirmedAt(samples: seq<Option<int>>, ignore: Option<string>, k: nat, from: nat, c: nat)
  {
    from < c <= |samples| && Reading(samples[c - 1], ignore).Some? && LastAgree(Accepted(samples, ignore, from, c), k)
  }

  /** `waitForNote` started at `from` has not been confident up to reading i. */
  predicate NoteUnconfirmed(samples: seq<Option<int>>, ignore: Option<string>, k: nat, from: nat, i: nat)
  {
    forall c :: from < c <= i ==> !NoteConfirmedAt(samples, ignore, k, from, c)
  }

  /** One more reading that does not confirm extends the unconfirmed prefix. */
  lemma ExtendNoteUnconfirmed(samples: seq<Option<int>>, ignore: Option<string>, k: nat, from: nat, i: nat)
    requires NoteUnconfirmed(samples, ignore, k, from, i) && !NoteConfirmedAt(samples, ignore, k, from, i + 1)
    ensures NoteUnconfirmed(samples, ignore, k, from, i + 1)
  {
  }

  /**
   * The first confirmation point of a `waitForNote` started at `from`, among
   * the readings before i, if there is one.
   */
  function FirstNoteUpTo(samples: seq<Option<int>>, ignore: Option<string>, from: nat, i: nat): (r: Option<nat>)
    requires from <= i <= |samples|
    ensures r.Some? ==> from < r.value <= i && samples[r.value - 1].Some?
    decreases i
  {
    if i == from then None
    else match FirstNoteUpTo(samples, ignore, from, i - 1)
      case Some(c) => Some(c)
      case None =>
        if NoteConfirmedAt(samples, ignore, ConfidenceLevel, from, i) then Some(i) else None
  }

  /**
   * FirstNoteUpTo finds the first confirmation point: confident there and at
   * no earlier point, or confident nowhere in range.
   */
  lemma {:induction false} FirstNoteUpToSpec(samples: seq<Option<int>>, ignore: Option<string>, from: nat, i: nat)
    requires from <= i <= |samples|
    ensures var r := FirstNoteUpTo(samples, ignore, from, i);
      (r.Some? ==> NoteConfirmedAt(samples, ignore, ConfidenceLevel, from, r.value) &&
                   NoteUnconfirmed(samples, ignore, ConfidenceLevel, from, r.value - 1)) &&
      (r.None? ==> NoteUnconfirmed(samples, ignore, ConfidenceLevel, from, i))
    decreases i
  {
    if i > from {
      FirstNoteUpToSpec(samples, ignore, from, i - 1);
      if FirstNoteUpTo(samples, ignore, from, i - 1).None? && !NoteConfirmedAt(samples, ignore, ConfidenceLevel, from, i) {
        ExtendNoteUnconfirmed(samples, ignore, ConfidenceLevel, from, i - 1);
      }
    }
  }

  /**
   * Where a `waitForNote` started at reading `from` returns: the position
   * after its confirming reading, or None if it is never confident.
   */
  function FirstNote(samples: seq<Option<int>>, ignore: Option<string>, from: nat): Option<nat>
    requires from <= |samples|
  {
    FirstNoteUpTo(samples, ignore, from, |samples|)
  }

  /** Once found, the first confirmation point stays the same as the range grows. */
  lemma {:induction false} FirstNoteUpToStable(samples: seq<Option<int>>, ignore: Option<string>, from: nat, i: nat, j: nat)
    requires from <= i <= j <= |samples| && FirstNoteUpTo(samples, ignore, from, i).Some?
    ensures FirstNoteUpTo(samples, ignore, from, j) == FirstNoteUpTo(samples, ignore, from, i)
    decreases j
  {
    if j > i {
      FirstNoteUpToStable(samples, ignore, from, i, j - 1);
    }
  }

  /** No accepted name is the ignored one. */
  lemma {:induction false} AcceptedAvoidsIgnore(samples: seq<Option<int>>, ignore: Option<string>, from: nat, c: nat)
    requires from <= c <= |samples|
    ensures forall t :: 0 <= t < |Accepted(samples, ignore, from, c)| ==> Some(Accepted(samples, ignore, from, c)[t]) != ignore
    decreases c
  {
    if c > from {
      AcceptedAvoidsIgnore(samples, ignore, from, c - 1);
    }
  }

  /** Every accepted name comes from one reading: j - i more readings add at most j - i names. */
  lemma {:induction false} AcceptedGrowth(samples: seq<Option<int>>, ignore: Option<string>, from: nat, i: nat, j: nat)
    requires from <= i <= j <= |samples|
    ensures |Accepted(samples, ignore, from, j)| <= |Accepted(samples, ignore, from, i)| + (j - i)
    decreases j - i
  {
    if i < j {
      AcceptedGrowth(samples, ignore, from, i, j - 1);
    }
  }

  /**
   * A confirmed note is the name of the reading that completed the run, and
   * never the ignored name.
   */
  lemma {:induction false} ConfirmedNote(samples: seq<Option<int>>, ignore: Option<string>, k: nat, from: nat, c: nat)
    requires NoteConfirmedAt(samples, ignore, k, from, c)
    ensures samples[c - 1].Some? && Reading(samples[c - 1], ignore) == Some(NoteName(samples[c - 1].value))
    ensures Accepted(samples, ignore, from, c)[|Accepted(samples, ignore, from, c)| - 1] == NoteName(samples[c - 1].value)
    ensures Some(NoteName(samples[c - 1].value)) != ignore
  {
  }

  /**
   * A buffer that holds the newest items first: entry t is the t-th newest
   * item of the history.
   */
  predicate NewestFirst<T(==)>(buffer: seq<T>, history: seq<T>)
  {
    |buffer| <= |history| && forall t :: 0 <= t < |buffer| ==> buffer[t] == history[|history| - 1 - t]
  }

  /** Inserting the newest item at the front keeps the buffer newest-first. */
  lemma NewestFirstPush<T>(buffer: seq<T>, history: seq<T>, x: T)
    requires NewestFirst(buffer, history)
    ensures NewestFirst([x] + buffer, history + [x])
  {
  }

  /** Dropping the oldest entry keeps it newest-first. */
  lemma NewestFirstPop<T>(buffer: seq<T>, history: seq<T>)
    requires NewestFirst(buffer, history) && |buffer| >= 1
    ensures NewestFirst(buffer[..|buffer| - 1], history)
  {
  }

  /**
   * With the newest k items in the buffer, counting x in the buffer decides
   * whether the last k items are all x.
   */
  lemma {:induction false} BufferDecides<T>(buffer: seq<T>, history: seq<T>, k: nat, x: T)
    requires NewestFirst(buffer, history) && |buffer| == k
    ensures Count(buffer, x) == |buffer| <==> LastAll(history, k, x)
  {
    CountAll(buffer, x);
    if LastAll(history, k, x) {
      forall t | 0 <= t < |buffer|
        ensures buffer[t] == x
      {
        assert |history| - k <= |history| - 1 - t < |history|;
      }
    }
    if Count(buffer, x) == |buffer| {
      forall t | |history| - k <= t < |history|
        ensures history[t] == x
      {
        assert buffer[|history| - 1 - t] == history[t];
      }
    }
  }

  /**
   * What `waitForNote` started at `from` knows after reading up to i without
   * being confident: its buffer holds the newest accepted names, newest
   * first, at most ConfidenceLevel - 1 of them.
   */
  predicate NoteBuffer(samples: seq<Option<int>>, ignore: Option<string>, from: nat, i: nat, buffer: seq<string>)
  {
    from <= i <= |samples| &&
    NewestFirst(buffer, Accepted(samples, ignore, from, i)) &&
    |buffer| == Min(|Accepted(samples, ignore, from, i)|, ConfidenceLevel - 1) &&
    NoteUnconfirmed(samples, ignore, ConfidenceLevel, from, i)
  }

  /** The smaller of a and b. */
  function Min(a: int, b: int): int
  {
    if a < b then a else b
  }

  /** A skipped reading (silent or ignored) leaves the buffer as it was. */
  lemma NoteBufferSkip(samples: seq<Option<int>>, ignore: Option<string>, from: nat, i: nat, buffer: seq<string>)
    requires NoteBuffer(samples, ignore, from, i, buffer) && i < |samples|
    requires Reading(samples[i], ignore).None?
    ensures NoteBuffer(samples, ignore, from, i + 1, buffer)
  {
    ExtendNoteUnconfirmed(samples, ignore, ConfidenceLevel, from, i);
  }

  /** A buffer kept to the end of the readings: no confirmation anywhere. */
  lemma NoteBufferEnd(samples: seq<Option<int>>, ignore: Option<string>, from: nat, buffer: seq<string>)
    requires NoteBuffer(samples, ignore, from, |samples|, buffer)
    ensures FirstNote(samples, ignore, from) == None
  {
    FirstNoteUpToSpec(samples, ignore, from, |samples|);
  }

  /** An accepted name pushed at the front of a buffer that is not yet full: the buffer is still in shape. */
  lemma {:induction false} NoteBufferGrow(samples: seq<Option<int>>, ignore: Option<string>, from: nat, i: nat, buffer: seq<string>, name: string)
    requires NoteBuffer(samples, ignore, from, i, buffer) && i < |samples|
    requires Reading(samples[i], ignore) == Some(name) && |[name] + buffer| < ConfidenceLevel
    ensures NoteBuffer(samples, ignore, from, i + 1, [name] + buffer)
  {
    NewestFirstPush(buffer, Accepted(samples, ignore, from, i), name);
    ExtendNoteUnconfirmed(samples, ignore, ConfidenceLevel, from, i);
  }

  /**
   * A full buffer after the push whose every entry is the new name: the
   * last ConfidenceLevel accepted names agree, so this is the first
   * confirmation point.
   */
  lemma {:induction false} NoteBufferConfirm(samples: seq<Option<int>>, ignore: Option<string>, from: nat, i: nat, buffer: seq<string>, name: string)
    requires NoteBuffer(samples, ignore, from, i, buffer) && i < |samples|
    requires Reading(samples[i], ignore) == Some(name) && |[name] + buffer| >= ConfidenceLevel
    requires Count([name] + buffer, name) == |[name] + buffer|
    ensures NoteConfirmedAt(samples, ignore, ConfidenceLevel, from, i + 1)
    ensures FirstNote(samples, ignore, from) == Some(i + 1)
  {
    FirstNoteUpToSpec(samples, ignore, from, i);
    var names := Accepted(samples, ignore, from, i + 1);
    assert names == Accepted(samples, ignore, from, i) + [name];
    NewestFirstPush(buffer, Accepted(samples, ignore, from, i), name);
    BufferDecides([name] + buffer, names, ConfidenceLevel, name);
    FirstNoteUpToStable(samples, ignore, from, i + 1, |samples|);
  }

  /**
   * A full buffer after the push that holds another name: no confirmation
   * yet, and dropping the oldest entry puts the buffer back in shape.
   */
  lemma {:induction false} NoteBufferDrop(samples: seq<Option<int>>, ignore: Option<string>, from: nat, i: nat, buffer: seq<string>, name: string)
    requires NoteBuffer(samples, ignore, from, i, buffer) && i < |samples|
    requires Reading(samples[i], ignore) == Some(name) && |[name] + buffer| >= ConfidenceLevel
    requires Count([name] + buffer, name) != |[name] + buffer|
    ensures !NoteConfirmedAt(samples, ignore, ConfidenceLevel, from, i + 1)
    ensures NoteBuffer(samples, ignore, from, i + 1, ([name] + buffer)[..|buffer|])
  {
    var names := Accepted(samples, ignore, from, i + 1);
    var pushed := [name] + buffer;
    assert names == Accepted(samples, ignore, from, i) + [name];
    NewestFirstPush(buffer, Accepted(samples, ignore, from, i), name);
    BufferDecides(pushed, names, ConfidenceLevel, name);
    ExtendNoteUnconfirmed(samples, ignore, ConfidenceLevel, from, i);
    NewestFirstPop(pushed, names);
  }

  /**
   * `waitForNote`, reading the stream from position `from` on: silent and
   * ignored readings are skipped, every other name is pushed at the front
   * of a buffer, and once the buffer holds ConfidenceLevel names it either
   * confirms (every entry is the new name) or drops its oldest entry.  The
   * result is the note at the first confirmation point and the position
   * after it, or None if the stream ends first.
   */
  method WaitForNote(samples: seq<Option<int>>, ignore: Option<string>, from: nat) returns (result: Option<string>, consumed: nat)
    requires from <= |samples|
    ensures from <= consumed <= |samples|
    ensures result.Some? ==> NoteConfirmedAt(samples, ignore, ConfidenceLevel, from, consumed)
    ensures result.Some? ==> result == Reading(samples[consumed - 1], ignore)
    ensures result.Some? ==> NoteUnconfirmed(samples, ignore, ConfidenceLevel, from, consumed - 1)
    ensures result.None? ==> consumed == |samples| && NoteUnconfirmed(samples, ignore, ConfidenceLevel, from, |samples|)
    ensures result.Some? ==> FirstNote(samples, ignore, from) == Some(consumed)
    ensures result.None? ==> FirstNote(samples, ignore, from) == None
  {
    var resultList: seq<string> := [];
    var i := from;
    while i < |samples|
      invariant NoteBuffer(samples, ignore, from, i, resultList)
    {
      var reading := Reading(samples[i], ignore);
      if reading.None? {
        NoteBufferSkip(samples, ignore, from, i, resultList);
        i := i + 1;
        continue;
      }
      var noteName := reading.value;
      ghost var i0, buffer0 := i, resultList;
      i := i + 1;
      resultList := [noteName] + resultList;
      if |resultList| >= ConfidenceLevel {
        if Count(resultList, noteName) == |resultList| {
          NoteBufferConfirm(samples, ignore, from, i0, buffer0, noteName);
          return Some(noteName), i;
        }
        NoteBufferDrop(samples, ignore, from, i0, buffer0, noteName);
        resultList := resultList[..|resultList| - 1];
      } else {
        NoteBufferGrow(samples, ignore, from, i0, buffer0, noteName);
      }
    }
    NoteBufferEnd(samples, ignore, from, resultList);
    return None, |samples|;
  }

  // ---------------------------------------------------------------------------
  // waitForMute

  /**
   * A `waitForMute` started at reading `from` is done after reading c - 1:
   * it has taken at least k readings and the last k of them are silent.
   */
  predicate MutedAt(samples: seq<Option<int>>, k: nat, from: nat, c: nat)
  {
    1 <= k && from + k <= c <= |samples| && LastAll(samples[..c], k, None)
  }

  /** `waitForMute` started at `from` has not finished up to reading i. */
  predicate MuteUnconfirmed(samples: seq<Option<int>>, k: nat, from: nat, i: nat)
  {
    forall c :: from < c <= i ==> !MutedAt(samples, k, from, c)
  }

  /** One more reading that does not finish the wait extends the prefix with no mute. */
  lemma ExtendMuteUnconfirmed(samples: seq<Option<int>>, k: nat, from: nat, i: nat)
    requires MuteUnconfirmed(samples, k, from, i) && !MutedAt(samples, k, from, i + 1)
    ensures MuteUnconfirmed(samples, k, from, i + 1)
  {
  }

  /** The first mute point of a `waitForMute` started at `from`, among the readings before i, if there is one. */
  function FirstMuteUpTo(samples: seq<Option<int>>, from: nat, i: nat): (r: Option<nat>)
    requires from <= i <= |samples|
    ensures r.Some? ==> from < r.value <= i
    decreases i
  {
    if i == from then None
    else match FirstMuteUpTo(samples, from, i - 1)
      case Some(c) => Some(c)
      case None =>
        if MutedAt(samples, ConfidenceLevel, from, i) then Some(i) else None
  }

  /**
   * FirstMuteUpTo finds the first mute point: muted there and at no earlier
   * point, or muted nowhere in range.
   */
  lemma {:induction false} FirstMuteUpToSpec(samples: seq<Option<int>>, from: nat, i: nat)
    requires from <= i <= |samples|
    ensures var r := FirstMuteUpTo(samples, from, i);
      (r.Some? ==> MutedAt(samples, ConfidenceLevel, from, r.value) && MuteUnconfirmed(samples, ConfidenceLevel, from, r.value - 1)) &&
      (r.None? ==> MuteUnconfirmed(samples, ConfidenceLevel, from, i))
    decreases i
  {
    if i > from {
      FirstMuteUpToSpec(samples, from, i - 1);
      if FirstMuteUpTo(samples, from, i - 1).None? && !MutedAt(samples, ConfidenceLevel, from, i) {
        ExtendMuteUnconfirmed(samples, ConfidenceLevel, from, i - 1);
      }
    }
  }

  /**
   * Where a `waitForMute` started at reading `from` returns, or None if the
   * strings never go quiet.
   */
  function FirstMute(samples: seq<Option<int>>, from: nat): Option<nat>
    requires from <= |samples|
  {
    FirstMuteUpTo(samples, from, |samples|)
  }

  /** Once found, the first mute point stays the same as the range grows. */
  lemma {:induction false} FirstMuteUpToStable(samples: seq<Option<int>>, from: nat, i: nat, j: nat)
    requires from <= i <= j <= |samples| && FirstMuteUpTo(samples, from, i).Some?
    ensures FirstMuteUpTo(samples, from, j) == FirstMuteUpTo(samples, from, i)
    decreases j
  {
    if j > i {
      FirstMuteUpToStable(samples, from, i, j - 1);
    }
  }

  /**
   * `waitForMute`, reading the stream from position `from` on: every
   * reading is pushed at the front of a buffer; once the buffer holds
   * ConfidenceLevel readings it either finishes (all are silent) or drops
   * its oldest entry.  Returns the position after the first point where the
   * last ConfidenceLevel readings are silent, or `muted` false when the
   * stream ends first.
   */
  method WaitForMute(samples: seq<Option<int>>, from: nat) returns (muted: bool, consumed: nat)
    requires from <= |samples|
    ensures from <= consumed <= |samples|
    ensures muted ==> MutedAt(samples, ConfidenceLevel, from, consumed)
    ensures muted ==> MuteUnconfirmed(samples, ConfidenceLevel, from, consumed - 1)
    ensures !muted ==> consumed == |samples| && MuteUnconfirmed(samples, ConfidenceLevel, from, |samples|)
    ensures muted ==> FirstMute(samples, from) == Some(consumed)
    ensures !muted ==> FirstMute(samples, from) == None
  {
    var pitchList: seq<Option<int>> := [];
    var i := from;
    while i < |samples|
      invariant from <= i <= |samples|
      invariant NewestFirst(pitchList, samples[..i])
      invariant |pitchList| == if i - from < ConfidenceLevel then i - from else ConfidenceLevel - 1
      invariant MuteUnconfirmed(samples, ConfidenceLevel, from, i)
      invariant FirstMuteUpTo(samples, from, i) == None
    {
      var pitch := samples[i];
      assert samples[..i + 1] == samples[..i] + [pitch];
      NewestFirstPush(pitchList, samples[..i], pitch);
      i := i + 1;
      pitchList := [pitch] + pitchList;
      if |pitchList| >= ConfidenceLevel {
        BufferDecides(pitchList, samples[..i], ConfidenceLevel, None);
        if Count(pitchList, None) == |pitchList| {
          FirstMuteUpToStable(samples, from, i, |samples|);
          return true, i;
        }
        ExtendMuteUnconfirmed(samples, ConfidenceLevel, from, i - 1);
        NewestFirstPop(pitchList, samples[..i]);
        pitchList := pitchList[..|pitchList| - 1];
      } else {
        ExtendMuteUnconfirmed(samples, ConfidenceLevel, from, i - 1);
      }
    }
    return false, |samples|;
  }

  // ---------------------------------------------------------------------------
  // Properties relating the two filters and worked examples

  /** The filters never fire on the same reading: a note needs a sounding last reading, a mute a silent one. */
  lemma NoteAndMuteExclusive(samples: seq<Option<int>>, ignore: Option<string>, k: nat, from: nat, c: nat)
    requires NoteConfirmedAt(samples, ignore, k, from, c)
    ensures !MutedAt(samples, k, from, c)
  {
    ConfirmedNote(samples, ignore, k, from, c);
    assert samples[..c][c - 1] == samples[c - 1];
  }

  /**
   * A run of j readings of semitone n, not the ignored name, ends the
   * accepted names with j copies of its name.
   */
  lemma {:induction false} AcceptedRun(samples: seq<Option<int>>, ignore: Option<string>, n: int, from: nat, start: nat, j: nat)
    requires from <= start && start + j <= |samples|
    requires forall t :: start <= t < start + j ==> samples[t] == Some(n)
    requires Some(NoteName(n)) != ignore
    ensures LastAll(Accepted(samples, ignore, from, start + j), j, NoteName(n))
    decreases j
  {
    if j > 0 {
      AcceptedRun(samples, ignore, n, from, start, j - 1);
      assert Reading(samples[start + j - 1], ignore) == Some(NoteName(n));
    }
  }

  /**
   * k consecutive readings of one note that is not ignored are enough:
   * `waitForNote` is confident after the last of them at the latest.
   */
  lemma RunConfirms(samples: seq<Option<int>>, ignore: Option<string>, k: nat, from: nat, c: nat, n: int)
    requires 1 <= k && from + k <= c <= |samples|
    requires forall t :: c - k <= t < c ==> samples[t] == Some(n)
    requires Some(NoteName(n)) != ignore
    ensures NoteConfirmedAt(samples, ignore, k, from, c)
  {
    AcceptedRun(samples, ignore, n, from, c - k, k);
    assert Reading(samples[c - 1], ignore) == Some(NoteName(n));
  }

  /**
   * Silence before a note does not count against it: two silent readings
   * then five A2 readings (semitone 45) confirm A2 after seven readings,
   * and not before.
   */
  lemma SilenceIsSkipped()
    ensures NoteConfirmedAt([None, None, Some(45), Some(45), Some(45), Some(45), Some(45)], None, ConfidenceLevel, 0, 7)
    ensures forall c :: 1 <= c < 7 ==> !NoteConfirmedAt([None, None, Some(45), Some(45), Some(45), Some(45), Some(45)], None, ConfidenceLevel, 0, c)
  {
    var s: seq<Option<int>> := [None, None, Some(45), Some(45), Some(45), Some(45), Some(45)];
    RunConfirms(s, None, ConfidenceLevel, 0, 7, 45);
    assert Accepted(s, None, 0, 2) == [];
    forall c | 1 <= c < 7
      ensures |Accepted(s, None, 0, c)| < ConfidenceLevel
    {
      if c <= 2 {
        AcceptedGrowth(s, None, 0, 0, c);
      } else {
        AcceptedGrowth(s, None, 0, 2, c);
      }
    }
  }
}
