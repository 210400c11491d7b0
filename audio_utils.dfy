/**
 The Sargam pitch calculator: the note table, the equal-tempered frequency formula, note
 lookup by name, the table of every note's frequency, and two numeric helpers.
 Frequencies are exact reals; `ratios` stands for the platform's 2^(k/12).
 */
module AudioUtils {
  import opened Wrappers
  import opened Tables
  import opened Strings
  import opened Pitch

  /** The two errors the calculator throws. */
  datatype Error =
    | NonPositiveBase          // the base frequency is not strictly positive
    | UnknownNote(note: string) // the note name, as given, is not in the table

  /** The text of the thrown error. */
  function Message(e: Error): (m: string)
    ensures e.UnknownNote? ==> |e.note| <= |m| && m[|m| - |e.note|..] == e.note
  {
    match e
    case NonPositiveBase => "Base frequency must be positive"
    case UnknownNote(note) => "Unknown note: " + note
  }

  /** Semitone offsets of the Sargam notes above Sa, in declaration order. */
  const SemitoneMap: Table<int> := [
    ("sa", 0), ("re", 2), ("ga", 4), ("ma", 5),
    ("pa", 7), ("da", 9), ("ni", 11), ("sa2", 12)
  ]

  /**
   The table's keys as a literal: contracts quantify over these names without unfolding the
   table, and SemitoneMapKeys proves the two equal.
   */
  const NoteNames: seq<string> := ["sa", "re", "ga", "ma", "pa", "da", "ni", "sa2"]

  /** The table's keys are the eight note names, each once. */
  lemma SemitoneMapKeys()
    ensures Keys(SemitoneMap) == NoteNames
    ensures Distinct(NoteNames)
  {
  }

  /**
   The table's offsets strictly increase in table order, lie within one octave, and sa2
   is exactly one octave above sa.
   */
  lemma SemitoneMapOffsets()
    ensures forall i, j :: 0 <= i < j < |SemitoneMap| ==> SemitoneMap[i].1 < SemitoneMap[j].1
    ensures forall i :: 0 <= i < |SemitoneMap| ==> 0 <= SemitoneMap[i].1 <= 12
    ensures SemitoneMap[0] == ("sa", 0) && SemitoneMap[7] == ("sa2", 12)
  {
  }

  /** The note names are already lower-case, so lower-casing finds them unchanged. */
  lemma NoteNamesLowerCase()
    ensures forall i :: 0 <= i < |NoteNames| ==> Lower(NoteNames[i]) == NoteNames[i]
  {
    forall i | 0 <= i < |NoteNames|
      ensures Lower(NoteNames[i]) == NoteNames[i]
    {
      LowerOfLowerCase(NoteNames[i]);
    }
  }

  /** `SEMITONE_MAP.hasOwnProperty(name) ? SEMITONE_MAP[name] : undefined`, case-sensitive. */
  function NoteOffset(name: string): (r: Option<int>)
    ensures r.Some? <==> name in NoteNames
    ensures r.Some? ==> 0 <= r.value <= 12
  {
    SemitoneMapKeys();
    SemitoneMapOffsets();
    LookupFirst(SemitoneMap, name);
    Lookup(SemitoneMap, name)
  }

  /** Every table entry is what a lookup of its name returns. */
  lemma NoteOffsetEntry(i: nat)
    requires i < |SemitoneMap|
    ensures NoteOffset(SemitoneMap[i].0) == Some(SemitoneMap[i].1)
  {
    SemitoneMapKeys();
    LookupEntry(SemitoneMap, i);
  }

  /**
   `calculateFrequency(baseFreq, semitones)`: throws when the base is not strictly
   positive, otherwise returns baseFreq * 2^(semitones / 12).
   */
  function CalculateFrequency(baseFreq: real, semitones: int, ratios: OctaveRatios): (r: Result<real, Error>)
    ensures r.Failure? <==> baseFreq <= 0.0
    ensures r.Failure? ==> r.error == NonPositiveBase
    ensures r.Success? ==> r.value > 0.0
  {
    if baseFreq <= 0.0 then Failure(NonPositiveBase)
    else Success(baseFreq * Ratio(ratios, semitones))
  }

  /** Zero semitones gives back the base frequency exactly. */
  lemma CalculateFrequencyUnison(baseFreq: real, ratios: OctaveRatios)
    requires baseFreq > 0.0
    ensures CalculateFrequency(baseFreq, 0, ratios) == Success(baseFreq)
  {
    RatioUnison(ratios);
  }

  /** Twelve semitones up doubles the frequency. */
  lemma CalculateFrequencyOctave(baseFreq: real, semitones: int, ratios: OctaveRatios)
    requires baseFreq > 0.0
    ensures CalculateFrequency(baseFreq, semitones + 12, ratios)
         == Success(2.0 * CalculateFrequency(baseFreq, semitones, ratios).value)
  {
    var low := CalculateFrequency(baseFreq, semitones, ratios);
    var high := CalculateFrequency(baseFreq, semitones + 12, ratios);
    assert low.value == baseFreq * Ratio(ratios, semitones);
    assert high.value == baseFreq * Ratio(ratios, semitones + 12);
    RatioOctave(ratios, semitones);
    var x := Ratio(ratios, semitones);
    assert high.value == baseFreq * (2.0 * x) == 2.0 * low.value;
    assert high == Success(high.value);
  }

  /** For a fixed base, more semitones always give a higher frequency. */
  lemma CalculateFrequencyMonotone(baseFreq: real, s: int, t: int, ratios: OctaveRatios)
    requires baseFreq > 0.0 && s < t
    ensures CalculateFrequency(baseFreq, s, ratios).value < CalculateFrequency(baseFreq, t, ratios).value
  {
    var a, b := Ratio(ratios, s), Ratio(ratios, t);
    RatioMonotone(ratios, s, t);
    ScaleLess(baseFreq, a, b);
    calc {
      CalculateFrequency(baseFreq, s, ratios).value;
      baseFreq * a;
    <
      baseFreq * b;
      CalculateFrequency(baseFreq, t, ratios).value;
    }
  }

  /**
   `getNoteFrequency(note, baseFreq)`: lower-cases the name, throws UnknownNote (carrying
   the name as given) when it is not in the table, and otherwise computes the frequency of
   the note's offset, throwing NonPositiveBase for a base that is not strictly positive.
   */
  function GetNoteFrequency(note: string, baseFreq: real, ratios: OctaveRatios): (r: Result<real, Error>)
    ensures r == Failure(UnknownNote(note)) <==> Lower(note) !in NoteNames
    ensures r == Failure(NonPositiveBase) <==> Lower(note) in NoteNames && baseFreq <= 0.0
    ensures r.Failure? ==> r.error.UnknownNote? || r.error.NonPositiveBase?
    ensures r.Success? ==> r.value > 0.0
  {
    var noteLower := Lower(note);
    match NoteOffset(noteLower)
    case None => Failure(UnknownNote(note))
    case Some(semitones) => CalculateFrequency(baseFreq, semitones, ratios)
  }

  /**
   Case-insensitivity: every casing of a note name gives the frequency of that name's
   offset.
   */
  lemma GetNoteFrequencyAnyCase(note: string, i: nat, baseFreq: real, ratios: OctaveRatios)
    requires i < |SemitoneMap| && Lower(note) == SemitoneMap[i].0
    ensures GetNoteFrequency(note, baseFreq, ratios) == CalculateFrequency(baseFreq, SemitoneMap[i].1, ratios)
  {
    NoteOffsetEntry(i);
  }

  /** Each note of the table, written as in the table, has the frequency of its offset. */
  lemma GetNoteFrequencyOfEntry(i: nat, baseFreq: real, ratios: OctaveRatios)
    requires i < |SemitoneMap|
    ensures GetNoteFrequency(SemitoneMap[i].0, baseFreq, ratios) == CalculateFrequency(baseFreq, SemitoneMap[i].1, ratios)
  {
    SemitoneMapKeys();
    NoteNamesLowerCase();
    assert SemitoneMap[i].0 == NoteNames[i];
    GetNoteFrequencyAnyCase(SemitoneMap[i].0, i, baseFreq, ratios);
  }

  /** Two names that lower-case alike give the same frequency, when either is a note. */
  lemma GetNoteFrequencyCaseInsensitive(a: string, b: string, baseFreq: real, ratios: OctaveRatios)
    requires Lower(a) == Lower(b)
    ensures GetNoteFrequency(a, baseFreq, ratios).Success? == GetNoteFrequency(b, baseFreq, ratios).Success?
    ensures Lower(a) in NoteNames ==> GetNoteFrequency(a, baseFreq, ratios) == GetNoteFrequency(b, baseFreq, ratios)
  {
  }

  /** The error message of an unknown note names the note as the caller wrote it. */
  lemma UnknownNoteMessage(note: string, baseFreq: real, ratios: OctaveRatios)
    requires Lower(note) !in NoteNames
    ensures GetNoteFrequency(note, baseFreq, ratios).Failure?
    ensures Message(GetNoteFrequency(note, baseFreq, ratios).error) == "Unknown note: " + note
  {
  }

  /** sa2, in any casing, sounds exactly one octave above sa, in any casing, whatever the base. */
  lemma Sa2IsOctaveOfSa(sa: string, sa2: string, baseFreq: real, ratios: OctaveRatios)
    requires Lower(sa) == "sa" && Lower(sa2) == "sa2"
    requires baseFreq > 0.0
    ensures GetNoteFrequency(sa2, baseFreq, ratios) == Success(2.0 * GetNoteFrequency(sa, baseFreq, ratios).value)
  {
    var lo := CalculateFrequency(baseFreq, 0, ratios);
    var hi := CalculateFrequency(baseFreq, 12, ratios);
    assert GetNoteFrequency(sa, baseFreq, ratios) == lo by { GetNoteFrequencyAnyCase(sa, 0, baseFreq, ratios); }
    assert GetNoteFrequency(sa2, baseFreq, ratios) == hi by { GetNoteFrequencyAnyCase(sa2, 7, baseFreq, ratios); }
    assert hi == Success(2.0 * lo.value) by { CalculateFrequencyOctave(baseFreq, 0, ratios); }
  }

  /** Sa at a 220 Hz base, in any casing, is 220 Hz. */
  lemma SaAt220(note: string, ratios: OctaveRatios)
    requires Lower(note) == "sa"
    ensures GetNoteFrequency(note, 220.0, ratios) == Success(220.0)
  {
    GetNoteFrequencyAnyCase(note, 0, 220.0, ratios);
    CalculateFrequencyUnison(220.0, ratios);
  }

  /** Pa at a 220 Hz base is 220 * 2^(7/12) Hz. */
  lemma PaAt220(note: string, ratios: OctaveRatios)
    requires Lower(note) == "pa"
    ensures GetNoteFrequency(note, 220.0, ratios) == Success(220.0 * ratios[7])
  {
    GetNoteFrequencyAnyCase(note, 4, 220.0, ratios);
    assert Ratio(ratios, 7) == ratios[7];
  }

  /** sa2 at a 220 Hz base is exactly 440 Hz. */
  lemma Sa2At220(note: string, ratios: OctaveRatios)
    requires Lower(note) == "sa2"
    ensures GetNoteFrequency(note, 220.0, ratios) == Success(440.0)
  {
    GetNoteFrequencyAnyCase(note, 7, 220.0, ratios);
    CalculateFrequencyUnison(220.0, ratios);
    CalculateFrequencyOctave(220.0, 0, ratios);
  }

  /** "xyz" is not a note: the lookup throws UnknownNote before looking at the base. */
  lemma XyzIsUnknown(note: string, baseFreq: real, ratios: OctaveRatios)
    requires Lower(note) == "xyz"
    ensures GetNoteFrequency(note, baseFreq, ratios) == Failure(UnknownNote(note))
  {
  }

  /** A known note with a base of 0 Hz throws NonPositiveBase. */
  lemma ZeroBaseThrows(note: string, ratios: OctaveRatios)
    requires Lower(note) in NoteNames
    ensures GetNoteFrequency(note, 0.0, ratios) == Failure(NonPositiveBase)
  {
  }

  function Max(a: real, b: real): (m: real) { if a >= b then a else b }

  function Min(a: real, b: real): (m: real) { if a <= b then a else b }

  /**
   `clamp(value, min, max)` = Math.min(Math.max(value, min), max). With min <= max the
   result is the point of [min, max] nearest to value; with min > max the outer min wins
   and the result is always max.
   */
  function Clamp(value: real, min: real, max: real): (r: real)
    ensures min <= max ==> min <= r <= max
    ensures min <= value <= max ==> r == value
    ensures min <= max && value < min ==> r == min
    ensures value > max ==> r == max
    ensures min > max ==> r == max
  {
    Min(Max(value, min), max)
  }

  /** Clamping a clamped value changes nothing, even when min > max. */
  lemma ClampIdempotent(value: real, min: real, max: real)
    ensures Clamp(Clamp(value, min, max), min, max) == Clamp(value, min, max)
  {
  }

  lemma ClampExamples()
    ensures Clamp(25.0, 0.0, 10.0) == 10.0
    ensures Clamp(-5.0, 0.0, 10.0) == 0.0
    ensures Clamp(5.0, 0.0, 10.0) == 5.0
    ensures Clamp(5.0, 10.0, 0.0) == 0.0
  {
  }

  const MinAudible: real := 20.0
  const MaxAudible: real := 20000.0

  /** `isAudibleFrequency(freq)`: within 20 Hz to 20 kHz, both ends included. */
  function IsAudibleFrequency(freq: real): (b: bool)
    ensures b ==> freq > 0.0
    ensures b <==> Clamp(freq, MinAudible, MaxAudible) == freq
  {
    freq >= MinAudible && freq <= MaxAudible
  }

  lemma AudibleExamples()
    ensures !IsAudibleFrequency(15.0) && !IsAudibleFrequency(19.999)
    ensures IsAudibleFrequency(20.0) && IsAudibleFrequency(220.0) && IsAudibleFrequency(20000.0)
    ensures !IsAudibleFrequency(20001.0) && !IsAudibleFrequency(20000.001)
  {
  }

  /**
   With Sa anywhere from 20 Hz to 10 kHz, every note of the table is audible: the table
   spans one octave, so its frequencies lie between the base and twice the base.
   (GetNoteFrequencyOfEntry gives the same value by name.)
   */
  lemma SargamAudible(baseFreq: real, i: nat, ratios: OctaveRatios)
    requires MinAudible <= baseFreq <= MaxAudible / 2.0
    requires i < |SemitoneMap|
    ensures CalculateFrequency(baseFreq, SemitoneMap[i].1, ratios).Success?
    ensures IsAudibleFrequency(CalculateFrequency(baseFreq, SemitoneMap[i].1, ratios).value)
  {
    var s := SemitoneMap[i].1;
    assert 0 <= s <= 12 by { SemitoneMapOffsets(); }
    RatioWithinOctave(ratios, s);
    var x := Ratio(ratios, s);
    ScaleWithinOctave(baseFreq, x);
  }

  /** The first `n` notes of the table, each under its name with its frequency at `baseFreq`. */
  predicate HoldsFirstNotes(t: Table<real>, n: nat, baseFreq: real, ratios: OctaveRatios) {
    && n <= |SemitoneMap| && |t| == n
    && (forall i :: 0 <= i < n ==> t[i].0 == NoteNames[i])
    && (forall i :: 0 <= i < n ==> CalculateFrequency(baseFreq, SemitoneMap[i].1, ratios) == Success(t[i].1))
  }

  /** Storing the next note's frequency under its name extends the table by that one entry. */
  lemma StoreNextNote(t: Table<real>, n: nat, baseFreq: real, v: real, ratios: OctaveRatios)
    requires HoldsFirstNotes(t, n, baseFreq, ratios) && n < |SemitoneMap|
    requires CalculateFrequency(baseFreq, SemitoneMap[n].1, ratios) == Success(v)
    ensures HoldsFirstNotes(Assign(t, SemitoneMap[n].0, v), n + 1, baseFreq, ratios)
  {
    var note := SemitoneMap[n].0;
    assert note == NoteNames[n] && Distinct(NoteNames) by {
      SemitoneMapKeys();
      assert Keys(SemitoneMap)[n] == note;
    }
    assert note !in Keys(t) by {
      assert forall m :: 0 <= m < n ==> Keys(t)[m] == NoteNames[m];
    }
    assert Assign(t, note, v) == t + [(note, v)];
  }

  /** A table holding all the notes has exactly the note names as its keys. */
  lemma AllNotesKeys(t: Table<real>, baseFreq: real, ratios: OctaveRatios)
    requires HoldsFirstNotes(t, |SemitoneMap|, baseFreq, ratios)
    ensures Keys(t) == NoteNames
  {
    assert forall i :: 0 <= i < |t| ==> Keys(t)[i] == NoteNames[i];
  }

  /**
   `getAllNoteFrequencies(baseFreq)`: walks the table in order and stores each note's
   frequency under its name in a fresh object. A base that is not strictly positive throws
   at the first note, so no partial object is returned.
   */
  method GetAllNoteFrequencies(baseFreq: real, ratios: OctaveRatios) returns (r: Result<Table<real>, Error>)
    ensures r.Failure? <==> baseFreq <= 0.0
    ensures r.Failure? ==> r.error == NonPositiveBase
    ensures r.Success? ==> Keys(r.value) == NoteNames
    ensures r.Success? ==> forall i :: 0 <= i < |r.value| ==>
              CalculateFrequency(baseFreq, SemitoneMap[i].1, ratios) == Success(r.value[i].1)
  {
    var frequencies: Table<real> := [];
    var n := 0;
    while n < |SemitoneMap|
      invariant HoldsFirstNotes(frequencies, n, baseFreq, ratios)
      invariant n > 0 ==> baseFreq > 0.0
    {
      var (note, semitones) := SemitoneMap[n];
      var f := CalculateFrequency(baseFreq, semitones, ratios);
      if f.Failure? {
        return Failure(f.error);
      }
      StoreNextNote(frequencies, n, baseFreq, f.value, ratios);
      frequencies := Assign(frequencies, note, f.value);
      n := n + 1;
    }
    AllNotesKeys(frequencies, baseFreq, ratios);
    return Success(frequencies);
  }

  /**
   Reading a note's entry from a table that `getAllNoteFrequencies` returned gives what
   `getNoteFrequency` computes for that note at the same base.
   */
  lemma AllNoteFrequenciesByName(t: Table<real>, baseFreq: real, i: nat, ratios: OctaveRatios)
    requires Keys(t) == NoteNames
    requires forall j :: 0 <= j < |t| ==> CalculateFrequency(baseFreq, SemitoneMap[j].1, ratios) == Success(t[j].1)
    requires i < |NoteNames|
    ensures Lookup(t, NoteNames[i]) == Some(t[i].1)
    ensures GetNoteFrequency(NoteNames[i], baseFreq, ratios) == Success(t[i].1)
  {
    assert Distinct(Keys(t)) && t[i].0 == NoteNames[i] by {
      SemitoneMapKeys();
      assert Keys(t)[i] == t[i].0;
    }
    LookupEntry(t, i);
    assert SemitoneMap[i].0 == NoteNames[i] by {
      SemitoneMapKeys();
      assert Keys(SemitoneMap)[i] == SemitoneMap[i].0;
    }
    assert CalculateFrequency(baseFreq, SemitoneMap[i].1, ratios) == Success(t[i].1);
    GetNoteFrequencyOfEntry(i, baseFreq, ratios);
  }
}
