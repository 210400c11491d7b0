/**
 The decision logic of the page script: switching views, the waveform radio buttons, the
 keyboard-to-note table and its keydown handler, the choice of a piano key's frequency,
 the key labels, and the table of sound players. The DOM is plain state: the `.view`
 elements, `.wave-btn` buttons and `.piano-key` elements are sequences of records in
 document order, and the tonic slider is its parsed value, or None when it is absent.
 */
module PianoView {
  import opened Wrappers
  import opened Tables
  import opened Strings
  import opened Pitch
  import opened AudioUtils

  /** A `.view` element: its id and whether it carries the `hidden` class. */
  datatype View = View(id: string, hidden: bool)

  /** A `.wave-btn` element: its `data-wave` and whether it carries the `active` class. */
  datatype WaveButton = WaveButton(wave: string, active: bool)

  /** A key's text: the markup it was loaded with, or the frequency `Math.round` renders. */
  datatype Label = Markup(text: string) | RoundedHz(hz: real)

  /** A `.piano-key` element: its `data-note` (None when absent), its parsed `data-freq`, its text. */
  datatype PianoKey = PianoKey(note: Option<string>, freq: real, caption: Label)

  /** What escapes an event handler. */
  datatype Fault =
    | NullElement            // a property read on the null that `getElementById` returned
    | Calculation(error: Error) // an error thrown by the pitch calculator

  const PianoViewId: string := "piano-view"

  function ViewIds(views: seq<View>): (ids: seq<string>) {
    seq(|views|, i requires 0 <= i < |views| => views[i].id)
  }

  function KeyNotes(keys: seq<PianoKey>): (notes: seq<Option<string>>) {
    seq(|keys|, i requires 0 <= i < |keys| => keys[i].note)
  }

  /**
   `document.getElementById('piano-view')` finds a view and it does not carry the `hidden`
   class: the first view with that id is shown.
   */
  function PianoViewVisible(views: seq<View>): (b: bool)
    ensures b <==> exists i :: 0 <= i < |views| && views[i] == View(PianoViewId, false)
                              && forall j :: 0 <= j < i ==> views[j].id != PianoViewId
  {
    var ids := ViewIds(views);
    assert forall j :: 0 <= j < |views| ==> ids[j] == views[j].id;
    match IndexOf(ids, PianoViewId)
    case None =>
      assert forall j :: 0 <= j < |views| ==> views[j].id != PianoViewId by {
        forall j | 0 <= j < |views| ensures views[j].id != PianoViewId {
          assert ids[j] in ids;
        }
      }
      false
    case Some(i) =>
      assert forall j :: 0 <= j < i ==> views[j].id != PianoViewId by {
        forall j | 0 <= j < i ensures views[j].id != PianoViewId {
          assert ids[..i][j] == ids[j];
        }
      }
      !views[i].hidden
  }

  /** The key's `data-note` is an own key of the note table (compared as written, not lower-cased). */
  function HasSargamNote(key: PianoKey): (b: bool)
    ensures b <==> key.note.Some? && key.note.value in NoteNames
  {
    key.note.Some? && NoteOffset(key.note.value).Some?
  }

  // ---------------------------------------------------------------- triggerKey

  /**
   `triggerKey(key)`: the frequency handed to the player. A key whose note is in the table
   plays that note at the slider's tonic, when the slider exists; every other key plays its
   own `data-freq`. Only a Sargam key under a tonic that is not positive throws.
   */
  function TriggerKey(key: PianoKey, tonic: Option<real>, ratios: OctaveRatios): (r: Result<real, Error>)
    ensures r.Failure? <==> HasSargamNote(key) && tonic.Some? && tonic.value <= 0.0
    ensures r.Failure? ==> r.error == NonPositiveBase
    ensures r.Success? ==> r.value > 0.0 || r.value == key.freq
    ensures !(HasSargamNote(key) && tonic.Some?) ==> r == Success(key.freq)
  {
    if HasSargamNote(key) && tonic.Some? then
      CalculateFrequency(tonic.value, NoteOffset(key.note.value).value, ratios)
    else
      Success(key.freq)
  }

  /** A Sargam key under the slider plays exactly what `getNoteFrequency` gives for its note. */
  lemma TriggerKeyPlaysNote(key: PianoKey, tonic: real, ratios: OctaveRatios)
    requires HasSargamNote(key)
    ensures TriggerKey(key, Some(tonic), ratios) == GetNoteFrequency(key.note.value, tonic, ratios)
  {
    NoteNamesLowerCase();
    assert key.note.value in NoteNames;
  }

  /**
   Unlike `getNoteFrequency`, `triggerKey` does not lower-case: a key whose `data-note` is
   "SA" plays its `data-freq`, although "SA" names Sa for `getNoteFrequency`.
   */
  lemma TriggerKeyIsCaseSensitive(freq: real, caption: Label, tonic: real, ratios: OctaveRatios)
    requires tonic > 0.0
    ensures TriggerKey(PianoKey(Some("SA"), freq, caption), Some(tonic), ratios) == Success(freq)
    ensures GetNoteFrequency("SA", tonic, ratios) == Success(tonic)
  {
    assert NoteOffset("SA").None? by { assert "SA" !in NoteNames; }
    GetNoteFrequencyAnyCase("SA", 0, tonic, ratios);
    CalculateFrequencyUnison(tonic, ratios);
  }

  /**
   Dragging into a piano key (`mouseenter`) triggers it only while exactly the primary
   button is held, that is, when the event's `buttons` bit mask is 1; a `mousedown` always
   triggers it.
   */
  function OnMouseEnter(buttons: int, key: PianoKey, tonic: Option<real>, ratios: OctaveRatios)
    : (r: Option<Result<real, Error>>)
    ensures r.Some? <==> buttons == 1
    ensures r.Some? ==> r.value == TriggerKey(key, tonic, ratios)
    ensures buttons == 1 && HasSargamNote(key) && tonic.Some? ==>
              r == Some(GetNoteFrequency(key.note.value, tonic.value, ratios))
    ensures buttons == 1 && !(HasSargamNote(key) && tonic.Some?) ==> r == Some(Success(key.freq))
  {
    if buttons != 1 then None
    else if HasSargamNote(key) && tonic.Some? then
      TriggerKeyPlaysNote(key, tonic.value, ratios);
      Some(TriggerKey(key, tonic, ratios))
    else
      Some(TriggerKey(key, tonic, ratios))
  }

  // ---------------------------------------------------------------- keydown

  /** The home-row keys and the notes they play. */
  const KeyboardToNote: Table<string> := [
    ("a", "sa"), ("s", "re"), ("d", "ga"), ("f", "ma"),
    ("j", "pa"), ("k", "da"), ("l", "ni"), (";", "sa2")
  ]

  /**
   The keyboard table's keys, written out once more: a literal lets the verifier compare
   keys directly, where `Keys(KeyboardToNote)` would have it unfold the table first.
   KeyboardToNoteShape proves the two equal.
   */
  const KeyboardKeys: seq<string> := ["a", "s", "d", "f", "j", "k", "l", ";"]

  /**
   The keyboard table has the eight home-row keys, each once, and maps the i-th of them to
   the i-th note of the Sargam table, so every mapped note is a note.
   */
  lemma KeyboardToNoteShape()
    ensures Keys(KeyboardToNote) == KeyboardKeys
    ensures Distinct(KeyboardKeys)
    ensures forall i :: 0 <= i < |KeyboardToNote| ==> KeyboardToNote[i].1 == NoteNames[i]
  {
  }

  /** `keyboardToNote[e.key.toLowerCase()]`: the note a key plays, whatever its case. */
  function NoteForKey(key: string): (r: Option<string>)
    ensures r.Some? <==> Lower(key) in KeyboardKeys
    ensures r.Some? ==> r.value in NoteNames
  {
    KeyboardToNoteShape();
    LookupFirst(KeyboardToNote, Lower(key));
    Lookup(KeyboardToNote, Lower(key))
  }

  /** Each home-row key, in either case, plays the note at its place in the table. */
  lemma NoteForKeyEntry(key: string, i: nat)
    requires i < |KeyboardKeys| && Lower(key) == KeyboardKeys[i]
    ensures NoteForKey(key) == Some(NoteNames[i])
  {
    KeyboardToNoteShape();
    LookupEntry(KeyboardToNote, i);
  }

  /** What a keydown on the document does. */
  datatype Reaction =
    | Ignored                          // returns without playing
    | Pressed(index: nat, freq: real)  // triggers the key at `index`, which plays `freq`
    | Threw(fault: Fault)

  /**
   The keydown handler: throws when there is no piano view; ignores the event while the
   piano view is hidden or when it comes from an INPUT; otherwise looks the key up
   (lower-cased) in the keyboard table and triggers the first piano key with that note,
   ignoring keys with no note and notes with no piano key.
   */
  function OnKeydown(views: seq<View>, targetTag: string, key: string, keys: seq<PianoKey>,
                     tonic: Option<real>, ratios: OctaveRatios): (r: Reaction)
    ensures PianoViewId !in ViewIds(views) <==> r == Threw(NullElement)
    ensures PianoViewId in ViewIds(views) && !PianoViewVisible(views) ==> r == Ignored
    ensures PianoViewVisible(views) && targetTag == "INPUT" ==> r == Ignored
    ensures PianoViewVisible(views) && NoteForKey(key).None? ==> r == Ignored
    ensures PianoViewVisible(views) && NoteForKey(key).Some? && NoteForKey(key) !in KeyNotes(keys) ==> r == Ignored
    ensures r.Pressed? ==>
              && PianoViewVisible(views) && targetTag != "INPUT" && NoteForKey(key).Some?
              && r.index < |keys| && keys[r.index].note == NoteForKey(key)
              && keys[r.index].note !in KeyNotes(keys)[..r.index]
              && TriggerKey(keys[r.index], tonic, ratios) == Success(r.freq)
    ensures r.Threw? && r.fault.Calculation? ==> r.fault.error == NonPositiveBase
    ensures PianoViewVisible(views) && targetTag != "INPUT" && NoteForKey(key).Some?
            && NoteForKey(key) in KeyNotes(keys) ==>
              var k := IndexOf(KeyNotes(keys), NoteForKey(key)).value;
              && (r.Pressed? <==> TriggerKey(keys[k], tonic, ratios).Success?)
              && (r.Pressed? ==> r.index == k)
              && (!r.Pressed? ==> r == Threw(Calculation(NonPositiveBase)))
  {
    match IndexOf(ViewIds(views), PianoViewId)
    case None => Threw(NullElement)
    case Some(v) =>
      if views[v].hidden then Ignored
      else if targetTag == "INPUT" then Ignored
      else
        match NoteForKey(key)
        case None => Ignored
        case Some(note) =>
          match IndexOf(KeyNotes(keys), Some(note))
          case None => Ignored
          case Some(k) =>
            match TriggerKey(keys[k], tonic, ratios)
            case Success(freq) => Pressed(k, freq)
            case Failure(e) => Threw(Calculation(e))
  }

  /** The key's case does not matter: "J" does what "j" does. */
  lemma OnKeydownIgnoresCase(views: seq<View>, targetTag: string, a: string, b: string,
                             keys: seq<PianoKey>, tonic: Option<real>, ratios: OctaveRatios)
    requires Lower(a) == Lower(b)
    ensures OnKeydown(views, targetTag, a, keys, tonic, ratios) == OnKeydown(views, targetTag, b, keys, tonic, ratios)
  {
  }

  /**
   Pressing the i-th home-row key while the piano is shown, with a positive tonic and a
   piano key for the i-th note, plays exactly `getNoteFrequency` of that note.
   */
  lemma OnKeydownPlaysNote(views: seq<View>, targetTag: string, key: string, i: nat,
                           keys: seq<PianoKey>, tonic: real, ratios: OctaveRatios)
    requires PianoViewVisible(views) && targetTag != "INPUT"
    requires i < |KeyboardKeys| && Lower(key) == KeyboardKeys[i]
    requires Some(NoteNames[i]) in KeyNotes(keys)
    requires tonic > 0.0
    ensures OnKeydown(views, targetTag, key, keys, Some(tonic), ratios).Pressed?
    ensures Success(OnKeydown(views, targetTag, key, keys, Some(tonic), ratios).freq)
         == GetNoteFrequency(NoteNames[i], tonic, ratios)
  {
    NoteForKeyEntry(key, i);
    var k := IndexOf(KeyNotes(keys), Some(NoteNames[i])).value;
    assert keys[k].note == Some(NoteNames[i]);
    assert HasSargamNote(keys[k]) by {
      SemitoneMapKeys();
      LookupFound(SemitoneMap, NoteNames[i]);
    }
    TriggerKeyPlaysNote(keys[k], tonic, ratios);
  }

  /** Without the tonic slider, the pressed key plays its own `data-freq`. */
  lemma OnKeydownWithoutSlider(views: seq<View>, targetTag: string, key: string,
                               keys: seq<PianoKey>, ratios: OctaveRatios)
    requires PianoViewVisible(views) && targetTag != "INPUT"
    requires NoteForKey(key).Some? && NoteForKey(key) in KeyNotes(keys)
    ensures var k := IndexOf(KeyNotes(keys), NoteForKey(key)).value;
            OnKeydown(views, targetTag, key, keys, None, ratios) == Pressed(k, keys[k].freq)
  {
  }

  /**
   With a tonic that is not positive, a mapped key that has a piano key throws the
   calculator's error instead of playing.
   */
  lemma OnKeydownNonPositiveTonic(views: seq<View>, targetTag: string, key: string,
                                  keys: seq<PianoKey>, tonic: real, ratios: OctaveRatios)
    requires PianoViewVisible(views) && targetTag != "INPUT"
    requires NoteForKey(key).Some? && NoteForKey(key) in KeyNotes(keys)
    requires tonic <= 0.0
    ensures OnKeydown(views, targetTag, key, keys, Some(tonic), ratios) == Threw(Calculation(NonPositiveBase))
  {
    var k := IndexOf(KeyNotes(keys), NoteForKey(key)).value;
    assert keys[k].note == NoteForKey(key);
    assert HasSargamNote(keys[k]);
  }

  // ---------------------------------------------------------------- sounds

  /** The sound players of the demo view. */
  datatype Player =
    | Sine | Square | Sawtooth | Triangle
    | Lowpass | Highpass | Bandpass | Notch
    | Pluck | Pad | Stab | Swell
    | Vibrato | Tremolo | FmBass | FmBell
    | Laser | PowerUp | Alarm | NoiseBurst

  /** The `sounds` table: `data-sound` names and the players they start. */
  const Sounds: Table<Player> := [
    ("sine", Sine), ("square", Square), ("sawtooth", Sawtooth), ("triangle", Triangle),
    ("lowpass", Lowpass), ("highpass", Highpass), ("bandpass", Bandpass), ("notch", Notch),
    ("pluck", Pluck), ("pad", Pad), ("stab", Stab), ("swell", Swell),
    ("vibrato", Vibrato), ("tremolo", Tremolo), ("fmBass", FmBass), ("fmBell", FmBell),
    ("laser", Laser), ("powerUp", PowerUp), ("alarm", Alarm), ("noiseBurst", NoiseBurst)
  ]

  /** The sound table's names as a literal; SoundsShape proves it equals `Keys(Sounds)`. */
  const SoundNames: seq<string> := [
    "sine", "square", "sawtooth", "triangle", "lowpass", "highpass", "bandpass", "notch",
    "pluck", "pad", "stab", "swell", "vibrato", "tremolo", "fmBass", "fmBell",
    "laser", "powerUp", "alarm", "noiseBurst"
  ]

  function Players(t: Table<Player>): (ps: seq<Player>) {
    seq(|t|, i requires 0 <= i < |t| => t[i].1)
  }

  /** Twenty names, each once, for twenty different players. */
  lemma SoundsShape()
    ensures Keys(Sounds) == SoundNames
    ensures Distinct(SoundNames)
    ensures Distinct(Players(Sounds))
  {
    SoundNamesDistinct();
    PlayersDistinct();
  }

  lemma SoundNamesDistinct()
    ensures Distinct(SoundNames)
  {
    FirstSoundNamesDistinct();
    LastSoundNamesDistinct();
    SoundNameHalvesDisjoint();
    forall i, j | 0 <= i < j < |SoundNames|
      ensures SoundNames[i] != SoundNames[j]
    {
      if j < 10 {
        assert SoundNames[..10][i] == SoundNames[i] && SoundNames[..10][j] == SoundNames[j];
      } else if 10 <= i {
        assert SoundNames[10..][i - 10] == SoundNames[i] && SoundNames[10..][j - 10] == SoundNames[j];
      } else {
        assert SoundNames[..10][i] == SoundNames[i] && SoundNames[10..][j - 10] == SoundNames[j];
      }
    }
  }

  lemma FirstSoundNamesDistinct()
    ensures Distinct(SoundNames[..10])
  {
  }

  lemma LastSoundNamesDistinct()
    ensures Distinct(SoundNames[10..])
  {
  }

  lemma SoundNameHalvesDisjoint()
    ensures forall i, j :: 0 <= i < 10 && 0 <= j < 10 ==> SoundNames[..10][i] != SoundNames[10..][j]
  {
  }

  /** The players' positions in the table: an injective numbering of the players. */
  function Ordinal(p: Player): (n: nat)
    ensures n < |Sounds| && Sounds[n].1 == p
  {
    match p
    case Sine => 0
    case Square => 1
    case Sawtooth => 2
    case Triangle => 3
    case Lowpass => 4
    case Highpass => 5
    case Bandpass => 6
    case Notch => 7
    case Pluck => 8
    case Pad => 9
    case Stab => 10
    case Swell => 11
    case Vibrato => 12
    case Tremolo => 13
    case FmBass => 14
    case FmBell => 15
    case Laser => 16
    case PowerUp => 17
    case Alarm => 18
    case NoiseBurst => 19
  }

  lemma PlayersDistinct()
    ensures Distinct(Players(Sounds))
  {
    assert forall i :: 0 <= i < |Sounds| ==> Ordinal(Players(Sounds)[i]) == i;
  }

  /**
   A sound button's click: `sounds[name]` when the name is one of the table's keys (the
   player to start), and nothing otherwise.
   */
  function SoundFor(name: string): (r: Option<Player>)
    ensures r.Some? <==> name in SoundNames
  {
    SoundsShape();
    LookupFound(Sounds, name);
    Lookup(Sounds, name)
  }

  /** A known name starts exactly the player the table gives it, and no two names share one. */
  lemma SoundForEntry(i: nat, name: string)
    requires i < |Sounds|
    ensures SoundFor(Sounds[i].0) == Some(Sounds[i].1)
    ensures SoundFor(name) == Some(Sounds[i].1) ==> name == Sounds[i].0
  {
    assert Distinct(Keys(Sounds)) by { SoundsShape(); }
    LookupEntry(Sounds, i);
    if SoundFor(name) == Some(Sounds[i].1) {
      LookupFirst(Sounds, name);
      var j := IndexOf(Keys(Sounds), name).value;
      assert Sounds[j].1 == Sounds[i].1;
      assert j == i by {
        PlayersDistinct();
        assert Players(Sounds)[j] == Players(Sounds)[i];
      }
    }
  }

  // ---------------------------------------------------------------- key labels

  /**
   One key after `updatePianoKeyLabels` at a positive tonic: a Sargam key shows the
   frequency it plays; any other key is left as it was.
   */
  function Relabelled(key: PianoKey, tonic: real, ratios: OctaveRatios): (r: PianoKey)
    requires tonic > 0.0
    ensures r.note == key.note && r.freq == key.freq
    ensures !HasSargamNote(key) ==> r == key
  {
    if HasSargamNote(key) then
      key.(caption := RoundedHz(CalculateFrequency(tonic, NoteOffset(key.note.value).value, ratios).value))
    else key
  }

  /**
   The label a Sargam key gets is the frequency the key plays when pressed, which is
   `getNoteFrequency` of its note at the same tonic.
   */
  lemma RelabelledShowsPlayedFrequency(key: PianoKey, tonic: real, ratios: OctaveRatios)
    requires tonic > 0.0 && HasSargamNote(key)
    ensures TriggerKey(key, Some(tonic), ratios).Success?
    ensures Relabelled(key, tonic, ratios).caption == RoundedHz(TriggerKey(key, Some(tonic), ratios).value)
    ensures Relabelled(key, tonic, ratios).caption.hz > 0.0
    ensures GetNoteFrequency(key.note.value, tonic, ratios) == Success(Relabelled(key, tonic, ratios).caption.hz)
  {
    TriggerKeyPlaysNote(key, tonic, ratios);
  }

  // ---------------------------------------------------------------- the page

  /** The page's mutable state. */
  class Page {
    var views: seq<View>
    var waveButtons: seq<WaveButton>
    var selectedWaveform: string
    var keys: seq<PianoKey>
    var tonic: Option<real>
    /** Whether the slider's value label (`piano-frequency-value`) exists. */
    const hasValueLabel: bool
    /**
     Whether the script got past its load-time relabelling and installed the slider, wave
     button, piano key and keydown listeners; a throw there ends the script before any of them.
     */
    var listening: bool

    /**
     The page as parsed, before the script's load-time step (`Load`) has run; the waveform
     starts as "sine" and no piano listener is installed yet.
     */
    constructor (views: seq<View>, waveButtons: seq<WaveButton>, keys: seq<PianoKey>, tonic: Option<real>,
                 hasValueLabel: bool)
      ensures this.views == views && this.waveButtons == waveButtons
      ensures this.keys == keys && this.tonic == tonic && this.hasValueLabel == hasValueLabel
      ensures selectedWaveform == "sine" && !listening
    {
      this.views := views;
      this.waveButtons := waveButtons;
      this.keys := keys;
      this.tonic := tonic;
      this.hasValueLabel := hasValueLabel;
      selectedWaveform := "sine";
      listening := false;
    }

    /**
     `showView(viewId)`: hides every view, then shows the first view with that id. When no
     view has it, every view stays hidden and the call throws (`ok` is false).
     */
    method ShowView(viewId: string) returns (ok: bool)
      modifies this
      ensures ok <==> viewId in ViewIds(old(views))
      ensures ViewIds(views) == ViewIds(old(views))
      ensures ok ==> forall i :: 0 <= i < |views| ==>
                (views[i].hidden <==> i != IndexOf(ViewIds(views), viewId).value)
      ensures !ok ==> forall i :: 0 <= i < |views| ==> views[i].hidden
      ensures waveButtons == old(waveButtons) && selectedWaveform == old(selectedWaveform)
      ensures keys == old(keys) && tonic == old(tonic) && listening == old(listening)
    {
      var i := 0;
      while i < |views|
        invariant 0 <= i <= |views| == |old(views)|
        invariant forall j :: 0 <= j < i ==> views[j] == View(old(views)[j].id, true)
        invariant forall j :: i <= j < |views| ==> views[j] == old(views)[j]
        invariant waveButtons == old(waveButtons) && selectedWaveform == old(selectedWaveform)
        invariant keys == old(keys) && tonic == old(tonic) && listening == old(listening)
      {
        views := views[i := views[i].(hidden := true)];
        i := i + 1;
      }
      assert ViewIds(views) == ViewIds(old(views));
      match IndexOf(ViewIds(views), viewId)
      case None =>
        ok := false;
      case Some(k) =>
        views := views[k := views[k].(hidden := false)];
        assert ViewIds(views) == ViewIds(old(views));
        ok := true;
    }

    /**
     A click on the wave button at `index`: every wave button loses `active`, the clicked
     one gains it, and its `data-wave` becomes the selected waveform.
     */
    method SelectWaveform(index: nat)
      requires listening && index < |waveButtons|
      modifies this
      ensures |waveButtons| == |old(waveButtons)|
      ensures forall j :: 0 <= j < |waveButtons| ==>
                waveButtons[j] == WaveButton(old(waveButtons)[j].wave, j == index)
      ensures selectedWaveform == old(waveButtons)[index].wave
      ensures views == old(views) && keys == old(keys) && tonic == old(tonic) && listening
    {
      var j := 0;
      while j < |waveButtons|
        invariant 0 <= j <= |waveButtons| == |old(waveButtons)|
        invariant forall m :: 0 <= m < j ==> waveButtons[m] == WaveButton(old(waveButtons)[m].wave, false)
        invariant forall m :: j <= m < |waveButtons| ==> waveButtons[m] == old(waveButtons)[m]
        invariant views == old(views) && keys == old(keys) && tonic == old(tonic) && listening
      {
        waveButtons := waveButtons[j := waveButtons[j].(active := false)];
        j := j + 1;
      }
      waveButtons := waveButtons[index := waveButtons[index].(active := true)];
      selectedWaveform := waveButtons[index].wave;
    }

    /**
     `updatePianoKeyLabels()`: without the slider, nothing happens. Otherwise every key whose
     note is in the table shows its frequency at the slider's tonic, in document order. A
     tonic that is not positive throws at the first such key (`ok` is false), before any
     label has changed.
     */
    method UpdatePianoKeyLabels(ratios: OctaveRatios) returns (ok: bool)
      modifies this
      ensures ok <==> tonic.None? || tonic.value > 0.0
                      || forall j :: 0 <= j < |old(keys)| ==> !HasSargamNote(old(keys)[j])
      ensures !ok || tonic.None? || tonic.value <= 0.0 ==> keys == old(keys)
      ensures tonic.Some? && tonic.value > 0.0 ==>
                |keys| == |old(keys)|
                && forall j :: 0 <= j < |keys| ==> keys[j] == Relabelled(old(keys)[j], tonic.value, ratios)
      ensures views == old(views) && waveButtons == old(waveButtons)
      ensures selectedWaveform == old(selectedWaveform) && tonic == old(tonic) && listening == old(listening)
    {
      if tonic.None? {
        return true;
      }
      var baseFreq := tonic.value;
      var labelled := keys;
      var i := 0;
      while i < |labelled|
        invariant 0 <= i <= |labelled| == |keys|
        invariant forall j :: i <= j < |labelled| ==> labelled[j] == keys[j]
        invariant baseFreq > 0.0 ==> forall j :: 0 <= j < i ==> labelled[j] == Relabelled(keys[j], baseFreq, ratios)
        invariant baseFreq <= 0.0 ==> labelled == keys
        invariant baseFreq <= 0.0 ==> forall j :: 0 <= j < i ==> !HasSargamNote(keys[j])
      {
        var key := labelled[i];
        if HasSargamNote(key) {
          var f := CalculateFrequency(baseFreq, NoteOffset(key.note.value).value, ratios);
          if f.Failure? {
            return false;
          }
          labelled := labelled[i := key.(caption := RoundedHz(f.value))];
        }
        i := i + 1;
      }
      keys := labelled;
      return true;
    }

    /**
     The script's load-time step: when both the tonic slider and its value label exist, the
     key labels are computed once, as `UpdatePianoKeyLabels` does; otherwise nothing changes.
     The piano listeners are installed afterwards, so a throw here (`ok` false) leaves the page
     without them.
     */
    method Load(ratios: OctaveRatios) returns (ok: bool)
      modifies this
      ensures listening <==> ok
      ensures !(hasValueLabel && tonic.Some?) ==> ok && keys == old(keys)
      ensures ok <==> !hasValueLabel || tonic.None? || tonic.value > 0.0
                      || forall j :: 0 <= j < |old(keys)| ==> !HasSargamNote(old(keys)[j])
      ensures !ok || tonic.None? || tonic.value <= 0.0 ==> keys == old(keys)
      ensures hasValueLabel && tonic.Some? && tonic.value > 0.0 ==>
                |keys| == |old(keys)|
                && forall j :: 0 <= j < |keys| ==> keys[j] == Relabelled(old(keys)[j], tonic.value, ratios)
      ensures views == old(views) && waveButtons == old(waveButtons)
      ensures selectedWaveform == old(selectedWaveform) && tonic == old(tonic)
    {
      if hasValueLabel && tonic.Some? {
        ok := UpdatePianoKeyLabels(ratios);
      } else {
        ok := true;
      }
      listening := ok;
    }

    /**
     Moving the tonic slider, whose listener exists only when the slider and its value label
     do and the load-time step did not throw: the new tonic is stored and the key labels
     follow it.
     */
    method OnTonicInput(value: real, ratios: OctaveRatios) returns (ok: bool)
      requires tonic.Some? && hasValueLabel && listening
      modifies this
      ensures tonic == Some(value)
      ensures ok <==> value > 0.0 || forall j :: 0 <= j < |old(keys)| ==> !HasSargamNote(old(keys)[j])
      ensures !ok || value <= 0.0 ==> keys == old(keys)
      ensures value > 0.0 ==>
                |keys| == |old(keys)|
                && forall j :: 0 <= j < |keys| ==> keys[j] == Relabelled(old(keys)[j], value, ratios)
      ensures views == old(views) && waveButtons == old(waveButtons)
      ensures selectedWaveform == old(selectedWaveform) && listening
    {
      tonic := Some(value);
      ok := UpdatePianoKeyLabels(ratios);
    }
  }
}
