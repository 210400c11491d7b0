# Sargam synthesizer: pitch calculator and page logic

This project models, in Dafny, the core of a small browser synthesizer that plays the Indian
Sargam scale (sa, re, ga, ma, pa, da, ni, sa2) on a one-octave piano and offers a demo page of
Web Audio sounds. The model has two parts:

- **The pitch calculator** (`audio-utils.js`), modelled in `audio_utils.dfy` as pure
  functions. It holds the note-to-semitone table and the equal-tempered formula
  `baseFreq * 2^(semitones / 12)`, and it throws errors for a base that is not positive and
  for an unknown note name. It also provides the `clamp` and audible-range helpers and
  builds the table of every note's frequency.
- **The page script** (`script.js`), modelled in `piano_view.dfy`. A class `Page` holds the
  DOM state that the handlers change: the `.view` elements, the `.wave-btn` buttons with
  the selected waveform, and the `.piano-key` elements with their labels. Pure functions
  cover the decisions the handlers make: the keyboard-to-note table, the keydown handler,
  `triggerKey`'s choice of frequency, and the `sounds` dispatch table.

The supporting modules are:

- `wrappers.dfy`: `Option` and `Result`.
- `tables.dfy`: a JavaScript plain object as an ordered list of own properties, with
  `hasOwnProperty`, lookup and assignment.
- `strings.dfy`: ASCII `toLowerCase`.
- `pitch.dfy`: the ratio 2^(n/12).

A thrown JavaScript error becomes a `Failure` value, or a `false` status from a `Page`
method. Frequencies are exact reals.

The irrational ratios 2^(k/12) for k = 1..11 cannot be written as Dafny reals, so every
frequency function takes an `OctaveRatios` parameter. It holds twelve reals, `r[0] == 1`,
strictly increasing, with `r[11] < 2`. `Ratio(r, n)` is `2^(n div 12) * r[n mod 12]`, which
is exact on whole octaves. So the proofs hold for 2^(k/12) and for any other monotone
tuning of the octave.

## Model

| member | source | states |
|---|---|---|
| AudioUtils.SemitoneMapKeys | audio-utils.js:9-18 | The note table has exactly the eight names sa, re, ga, ma, pa, da, ni, sa2, in that order, each once. |
| AudioUtils.SemitoneMapOffsets | audio-utils.js:9-18 | Offsets strictly increase in table order and lie in 0..12; sa is 0 and sa2 is 12, one octave. |
| AudioUtils.NoteNamesLowerCase | audio-utils.js:9-18 | Every note name is already lower-case, so lower-casing a table name finds it unchanged. |
| AudioUtils.NoteOffset | audio-utils.js:44 | The own-property test on the table: a name has an offset exactly when it is one of the eight names (case-sensitive), and the offset lies in 0..12. |
| AudioUtils.NoteOffsetEntry | audio-utils.js:47 | Looking up each table name returns that entry's own offset. |
| AudioUtils.Message | audio-utils.js:44-45 | The unknown-note error message ends with the name exactly as the caller wrote it. |
| AudioUtils.CalculateFrequency | audio-utils.js:28-33 | Throws exactly when the base is not strictly positive, with the non-positive-base error; otherwise the frequency is positive. |
| AudioUtils.CalculateFrequencyUnison | audio-utils.js:32 | Zero semitones returns the base frequency itself. |
| AudioUtils.CalculateFrequencyOctave | audio-utils.js:32 | Twelve more semitones exactly doubles the frequency, for every starting offset. |
| AudioUtils.CalculateFrequencyMonotone | audio-utils.js:32 | At a fixed positive base, more semitones always means a strictly higher frequency. |
| AudioUtils.GetNoteFrequency | audio-utils.js:42-48 | Throws the unknown-note error, carrying the caller's spelling, exactly when the lower-cased name is not in the table. Throws the non-positive-base error exactly when the name is known and the base is not positive. Nothing else is thrown, and every success is positive. |
| AudioUtils.GetNoteFrequencyAnyCase | audio-utils.js:43-47 | Any casing of a table name gives the frequency of that entry's offset. |
| AudioUtils.GetNoteFrequencyOfEntry | audio-utils.js:42-48 | Each table name, as written in the table, gives the frequency of its own offset. |
| AudioUtils.GetNoteFrequencyCaseInsensitive | audio-utils.js:43 | Two names that lower-case alike both succeed or both fail, and give the same result when they name a note. |
| AudioUtils.UnknownNoteMessage | audio-utils.js:44-45 | An unknown name always throws, and its message is "Unknown note: " followed by the name as given. |
| AudioUtils.Sa2IsOctaveOfSa | audio-utils.js:42-48 | At any positive base, sa2 is exactly twice sa, in any casing. |
| AudioUtils.SaAt220 | audio-utils.js:42-48 | Sa at a 220 Hz base is 220 Hz. |
| AudioUtils.PaAt220 | audio-utils.js:42-48 | Pa at a 220 Hz base is 220 times the ratio for seven semitones. |
| AudioUtils.Sa2At220 | audio-utils.js:42-48 | sa2 at a 220 Hz base is 440 Hz. |
| AudioUtils.XyzIsUnknown | audio-utils.js:44-45 | "xyz", in any casing, throws the unknown-note error at any base, including a base that is not positive. |
| AudioUtils.ZeroBaseThrows | audio-utils.js:42-48 | Every table note, in any casing, at a 0 Hz base throws the non-positive-base error. |
| AudioUtils.Clamp | audio-utils.js:58-60 | With min <= max the result lies in [min, max]: it is the value when inside, min below, max above. With min > max it is always max. |
| AudioUtils.ClampIdempotent | audio-utils.js:58-60 | Clamping twice equals clamping once, for every bound order. |
| AudioUtils.ClampExamples | audio-utils.js:58-60 | 25 clamps to 10 and -5 to 0 in [0, 10], and 5 stays 5; with the bounds swapped, 5 gives 0. |
| AudioUtils.IsAudibleFrequency | audio-utils.js:68-70 | A frequency is audible exactly when clamping it to 20..20000 leaves it unchanged, and every audible frequency is positive. |
| AudioUtils.AudibleExamples | audio-utils.js:68-70 | 20 Hz and 20000 Hz are audible (inclusive bounds); 19.999 Hz and 20000.001 Hz are not. |
| AudioUtils.SargamAudible | audio-utils.js:9-18 | For any base from 20 Hz to 10 kHz, every table note's frequency succeeds and is audible. |
| AudioUtils.GetAllNoteFrequencies | audio-utils.js:78-84 | Throws exactly when the base is not positive, with that error. Otherwise the result has exactly the eight note names as keys, in table order, and each value is the calculator's frequency for that note's offset. |
| AudioUtils.AllNoteFrequenciesByName | audio-utils.js:78-84 | For a table with that shape, looking a note up by name gives the value `getNoteFrequency` returns for that note. |
| Strings.Lower | audio-utils.js:43 | Lower-casing keeps the length, maps each character on its own, and turns A-Z into a-z. |
| Strings.LowerIdempotent | audio-utils.js:43 | Lower-casing twice equals lower-casing once. |
| Tables.LookupFound | audio-utils.js:44 | A property lookup finds a value exactly when the key is an own key of the object. |
| Tables.LookupFirst | audio-utils.js:47 | A lookup returns the value stored at the key's first position. |
| Tables.LookupEntry | audio-utils.js:47 | With distinct keys, looking up the i-th key returns the i-th value. |
| Tables.Assign | audio-utils.js:81 | Assigning to a new key appends it at the end; assigning to an existing key keeps the key order. |
| Tables.AssignLookup | audio-utils.js:81 | After an assignment, the assigned key reads back the new value and every other key reads as before. |
| Pitch.RatioOctave | audio-utils.js:32 | 2^((n+12)/12) = 2 * 2^(n/12) for every integer n, negative n included. |
| Pitch.Ratio | audio-utils.js:32 | The factor 2^(n/12) is positive for every integer n. |
| Pitch.RatioInFirstOctave | audio-utils.js:32 | For 0 <= n < 12 the factor is the tuning's own n-th ratio. |
| Pitch.RatioMonotone | audio-utils.js:32 | 2^(n/12) is strictly increasing in n. |
| Pitch.RatioWithinOctave | audio-utils.js:32 | For 0 <= n <= 12, 2^(n/12) lies between 1 and 2. |
| PianoView.TriggerKey | script.js:745-755 | Throws only for a key whose note is an own key of the table, under a slider whose tonic is not positive, and then with the non-positive-base error. Any key without a table note, or any key when there is no slider, plays its own `data-freq`. |
| PianoView.TriggerKeyPlaysNote | script.js:747-749 | A key whose note is in the table plays exactly `getNoteFrequency(note, tonic)`. |
| PianoView.TriggerKeyIsCaseSensitive | script.js:747 | A key marked "SA" plays its `data-freq`, even though `getNoteFrequency("SA")` is Sa: `triggerKey` does not lower-case. |
| PianoView.HasSargamNote | script.js:747 | The own-property test on `data-note`: it holds exactly when the key has a note and that note, as written, is one of the eight table names. |
| PianoView.PianoViewVisible | script.js:786-787 | The first view with id `piano-view` exists and is not hidden. |
| PianoView.OnMouseEnter | script.js:765-769 | Entering a key triggers it exactly when the event's `buttons` is 1. It then plays `getNoteFrequency` of the key's note at the tonic when the note is a table name and the slider exists, and the key's own `data-freq` otherwise. |
| PianoView.KeyboardToNoteShape | script.js:773-782 | The keyboard table maps exactly the keys a s d f j k l ;, each once, to the eight notes in table order. |
| PianoView.NoteForKey | script.js:792 | A key maps to a note exactly when its lower-cased form is a home-row key, and every mapped note is a table note. |
| PianoView.NoteForKeyEntry | script.js:773-782 | The i-th home-row key, in either case, plays the i-th note. |
| PianoView.OnKeydown | script.js:784-802 | Throws exactly when there is no piano view. It ignores the event when the view is hidden, when the target is an INPUT, for an unmapped key, or when no piano key carries the note. Otherwise it triggers the first piano key with the mapped note: it presses that key, at the frequency `triggerKey` gives, exactly when `triggerKey` succeeds, and otherwise throws the non-positive-base error. |
| PianoView.OnKeydownIgnoresCase | script.js:792 | Keys that lower-case alike get the same reaction. |
| PianoView.OnKeydownPlaysNote | script.js:784-802 | With the piano shown, a positive tonic and a key for the note, the i-th home-row key presses and plays exactly `getNoteFrequency` of the i-th note. |
| PianoView.OnKeydownWithoutSlider | script.js:751-753 | Without the tonic slider, a mapped key that has a piano key presses it at that key's own `data-freq`. |
| PianoView.OnKeydownNonPositiveTonic | script.js:747-749 | With a tonic that is not positive, a mapped key that has a piano key throws the non-positive-base error. |
| PianoView.SoundsShape | script.js:642-663 | The sounds table has twenty distinct names for twenty distinct players. |
| PianoView.SoundFor | script.js:666-673 | A click starts a player exactly when the button's `data-sound` is one of the table's names. |
| PianoView.SoundForEntry | script.js:642-673 | Each name starts its own player, and no other name starts that player. |
| PianoView.Relabelled | script.js:692-697 | Relabelling never changes a key's note or `data-freq`, and a key whose note is not in the table is left exactly as it was. |
| PianoView.RelabelledShowsPlayedFrequency | script.js:694-696 | A key whose note is in the table, at a positive tonic, is labelled with the positive frequency that `triggerKey` plays for it, which is `getNoteFrequency` of its note. |
| PianoView.Page.constructor | script.js:679 | The selected waveform starts as "sine"; views, buttons, keys, tonic and whether the slider's value label exists are the page as parsed, before the load-time relabelling, and no piano listener is installed yet. |
| PianoView.Page.ShowView | script.js:21-25 | Every `.view` is hidden except the first view with the given id. If no view has that id, all views end up hidden and the call throws. No other state changes. |
| PianoView.Page.SelectWaveform | script.js:716-722 | Callable only once the listeners are installed. Exactly the clicked wave button is active afterwards, and its `data-wave` becomes the selected waveform. No other state changes. |
| PianoView.Page.UpdatePianoKeyLabels | script.js:688-698 | With no slider, nothing changes. With a positive tonic, every key is relabelled as `Relabelled` says. With a tonic that is not positive, it throws exactly when some key has a table note, and no label changes. |
| PianoView.Page.Load | script.js:701-702 | When the slider and its value label both exist, the keys are relabelled once, with `UpdatePianoKeyLabels`'s outcome; otherwise nothing changes. The later piano listeners are installed exactly when this did not throw. |
| PianoView.Page.OnTonicInput | script.js:701-707 | Only on a page with the slider and its value label, after a load that did not throw: moving the slider stores the new tonic, then relabels the keys as `UpdatePianoKeyLabels` does. |

## Left out

- The sound players (`playSine` through `playNoiseBurst`), `playPianoNote`, `getAudioContext` and the canvas drawing. They are Web Audio and canvas calls. `Player` names which one would start.
- The slider's own text and the duration slider. They only copy the slider value into a label.
- Floating point. Frequencies are exact reals, so NaN and Infinity are not modelled. This includes a `parseFloat` of a non-numeric slider value or `data-freq`, where `NaN <= 0` is false and the code returns NaN without throwing.
- The `Math.round` of a key label. `RoundedHz` keeps the unrounded frequency it is applied to.
- Fractional semitone counts. `CalculateFrequency` takes an integer, the only kind the note table supplies.
- The exact values of 2^(k/12). They are the `OctaveRatios` parameter, and only their order and the octave law are used.
- `Strings.Lower`: it lower-cases ASCII A-Z only. JavaScript's `toLowerCase` also maps other Unicode letters, some of them to ASCII (the Kelvin sign becomes 'k').
- Inherited properties of plain objects. `keyboardToNote[...]` and `sounds[...]` would also find members of `Object.prototype`, such as `constructor`. The model looks up own keys only.
- The `active` class that a keydown adds to a piano key and removes again after 100 ms (a timer). `Pressed` names the key instead.
- PianoView.Page.ShowView: `document.getElementById` is resolved among the `.view` elements only. In the page, another element with that id would be un-hidden instead, and no error would be thrown.
- PianoView.OnKeydown: the `piano-view` id is likewise resolved among the `.view` elements only.
- PianoView.OnKeydown: it is a function of the event and the page, and does not consult `Page.listening`. When the load-time relabelling throws, the page never installs the keydown listener, so no reaction happens at all; callers must check `listening` themselves.
- PianoView.OnMouseEnter: likewise, it does not consult `Page.listening`; after a load-time throw the page has no `mouseenter` listener.
- `showView`'s canvas resize and clear when the demo view is shown. The landing-page button wiring is left out too.
- The CommonJS export block at the end of `audio-utils.js`.
