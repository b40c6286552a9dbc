# Songsterr tab to MusicXML converter: a verified model

This project models the conversion engine of `Converter.py`, which turns a Songsterr track payload (JSON) into a single-part MusicXML tablature score. It covers five stages:

- **Tuning resolution.** A list-shaped or keyed-map tuning is normalised. When that yields nothing, a tuning is synthesised from a string count, a top pitch and a descending interval.
- **Beat-to-chord mapping.** Duration is 4·num/den. Malformed notes are dropped. Pitch is the open string plus the fret. Pitches are stably sorted upward, muted notes are marked, and a beat with nothing usable becomes a rest. So does a beat whose only usable note has pitch 0: the source builds `Chord(0, d)` for it, the score library's rest, which gets no tab markers and clears pending links.
- **Tab markup and articulation linking.** Every chord gets its string/fret markers and staccato. A per-measure state machine holds a pending hammer-on/pull-off source, a pending slide source and a pending slide kind. It links each source to the next sounding chord with slur, hammer-on/pull-off, glissando and slide marker pairs.
- **Measure assembly.** Keyed measures are normalised and measures are stably sorted by index. Each measure states a time signature only when it changes. A measure without voices or beats becomes one whole-measure rest. The assembly is written as the source writes it: a `Part` object whose measure list is updated in place, driven by loops over the measures and the beats.
- **Post-processing of the written note tree.** A `pitch` element is read as a MIDI number. A string and fret are inferred for it, with the smallest fret winning and the lowest string breaking ties. Every note gets `technical` `string`/`fret` children. In unpitched dead-note mode, the `pitch` of a dead note is replaced by an `unpitched` C4 element, inserted before the first child whose tag is in a fixed trailing set (`instrument`, `voice`, `type`, `dot`, `time-modification`, `stem`, `notehead`, `staff`, `beam`, `notations`, `lyric`), or at the end. That set lacks `duration` and `tie`, so the `unpitched` element lands after them.

The modules follow the source's stages:

| module | contents |
|---|---|
| `Payload` | the input datatypes |
| `Text` | ASCII strip, lower/upper, integer parse and print |
| `Sorting` | Python's stable sort as an insertion sort on (key, item) pairs |
| `Tuning` | tuning resolution |
| `Beats` | beat-to-chord mapping |
| `Linker` | tab markers and the link state machine |
| `Measures` | keyed measures, sort, time signatures |
| `Assembly` | the `Part` class and the measure/beat loops |
| `MusicXml` | the element tree, the `NoteElement` class and the post-processing passes |
| `Metadata` | file name, first usable text, dead-note mode |

How JSON values are represented:

- A JSON field that is missing or of the wrong type is `None`.
- A list item that is not an object is `None`.
- A collection field that holds something other than a list is an empty list. Every reader in the source treats the two alike.

Pending link sources are the indices of chords already appended to the current measure. This is how the model captures the source mutating chords after it appended them: `add_x` on a chord that is already in the part.

Three behaviours of the code worth noting, which the model follows:

- The string-count guess skips only notes flagged rest. It does not skip muted notes.
- When a note has only one of the `string` and `fret` children, `_ensure_note_has_technical_string_fret` overwrites that child's text. It does not leave it alone. A note is left untouched only when it has both.
- A beat list that is not empty but holds no objects gives a measure with no chords at all, not the whole-measure rest. The rest is added only when the first voice has no beats.

## Model

| member | source | states |
|---|---|---|
| Text.TrimStartDrops | Converter.py:87 | trimming the start drops exactly the leading blanks: the result is a suffix and starts with a non-blank, or is empty |
| Text.TrimEndDrops | Converter.py:87 | trimming the end drops exactly the trailing blanks: the result is a prefix and ends with a non-blank, or is empty |
| Text.StripSlice | Converter.py:94-95 | `strip()` is a slice of the text with only blanks on either side of it |
| Text.StripIsTrimmed | Converter.py:94-95 | a stripped text neither starts nor ends with a blank |
| Text.StripTrimmed | Converter.py:94-95 | a text that neither starts nor ends with a blank is its own strip |
| Text.StripIdempotent | Converter.py:94-95 | stripping twice is stripping once |
| Text.LowerChar | Converter.py:183 | `lower()` maps A-Z to a-z and leaves every other character alone |
| Text.LowerChars | Converter.py:183 | lower-casing a text lower-cases each character in place |
| Text.UpperChar | Converter.py:228 | `upper()` maps a-z to A-Z and leaves every other character alone |
| Text.NatToString | Converter.py:309 | the decimal text of a natural number is non-empty and all digits |
| Text.DigitsOfNat | Converter.py:309 | the digits printed for n read back as n |
| Text.ParseIntToString | Converter.py:246 | `int(str(n)) == n` for every integer, negative ones included |
| Text.IntToStringStripped | Converter.py:309 | the printed form of an integer has no surrounding blanks |
| Metadata.SafeChar | Converter.py:87 | a character is kept exactly when it is an ASCII letter, a digit, '-' or '_'; every other character becomes '_' |
| Metadata.SafeChars | Converter.py:87 | the cleaned text has the input's length and maps each character on its own |
| Metadata.SafeFilename | Converter.py:86-88 | the file name is never empty and holds only kept characters; it is "track" exactly when the stripped value is empty, else the stripped value with each character made safe |
| Metadata.SafeFilenameIdempotent | Converter.py:86-88 | a safe file name is its own safe form |
| Metadata.SafeFilenameKept | Converter.py:86-88 | a non-empty text of kept characters is its own safe file name |
| Metadata.FirstUsable | Converter.py:91-96 | the index found is the first key whose field is a non-blank string; None exactly when no key has one |
| Metadata.FirstNonEmpty | Converter.py:91-96 | the default when no key has a non-blank string field; otherwise the stripped text of the first key that has one |
| Metadata.SongName | Converter.py:99-104 | a track without a usable name alias is called "track" |
| Metadata.AuthorName | Converter.py:641-645 | the author defaults to "unknown-author" without a usable author alias |
| Metadata.EditorName | Converter.py:646-650 | the editor defaults to the revision id, and that to "unknown", without a usable editor alias |
| Metadata.OutputFileName | Converter.py:652 | the output name ends in ".musicxml" and what comes before it is the safe file name of song, author and editor joined by '-' |
| Metadata.AnonymousOutputName | Converter.py:641-652 | a track with no usable name, author or editor and no revision id is written to "track-unknown-author-unknown.musicxml" |
| Metadata.UnnamedSongIsTrack | Converter.py:99-104 | a payload without a usable name alias is called "track" |
| Metadata.ResolveDeadNoteMode | Converter.py:180-191 | a `deadNoteMode` naming a mode, ignoring case and blanks, wins; otherwise `deadNotesAsUnpitched`; otherwise standard; unpitched exactly in those cases |
| Sorting.Insert | Converter.py:148 | inserting into a key-sorted list keeps it sorted and adds exactly the element, as a multiset |
| Sorting.InsertWithKey | Converter.py:148 | insertion puts the new element before every earlier element with the same key |
| Sorting.StableSort | Converter.py:148 | the sort is a permutation, ordered by key, and keeps the input order among equal keys |
| Sorting.SortSorted | Converter.py:383 | input already in key order comes back unchanged |
| Tuning.NormalizeList | Converter.py:387-404 | the result holds the value of every usable entry and only such values, and is no longer than the list |
| Tuning.NormalizeListAppend | Converter.py:390-404 | list normalisation keeps order: it distributes over concatenation |
| Tuning.KeyedValues | Converter.py:365-381 | every entry whose key parses as an integer and whose value is usable yields its (key, value) pair, and only such pairs are yielded |
| Tuning.NormalizeMap | Converter.py:382-385 | a keyed tuning yields one value per usable entry; the order is stated by NormalizeMapOrdered |
| Tuning.NormalizeMapOrdered | Converter.py:382-385 | the values are those of some sequence that holds exactly the usable (key, value) pairs, is in ascending key order, and keeps pairs with equal keys in insertion order, as the stable `values.sort(key=...)` leaves them |
| Tuning.MapInKeyOrder | Converter.py:382-384 | keys given in ascending order leave the values in the order given |
| Tuning.NormalizeTuning | Converter.py:364-404 | the supplied tuning is empty exactly when no entry is usable |
| Tuning.ResolveTuning | Converter.py:453-458 | a supplied tuning with a usable entry wins; otherwise the synthesised one |
| Tuning.PresentNotes | Converter.py:357-359 | a note is collected exactly when it is a note object of the beat |
| Tuning.NotesOfBeats | Converter.py:349-359 | every note object of every beat object is collected (NotesOfBeatsOnly: and nothing else) |
| Tuning.NotesOfVoices | Converter.py:341-359 | every note object of every beat of every voice object is collected (NotesOfVoicesOnly: and nothing else) |
| Tuning.AllNotes | Converter.py:330-361 | every note object of every measure object is collected, all voices included (AllNotesOnly: and nothing else) |
| Tuning.NotesOfBeatsOnly | Converter.py:349-359 | only note objects of the beat objects are collected |
| Tuning.NotesOfVoicesOnly | Converter.py:341-359 | only note objects of the beats of the voice objects are collected |
| Tuning.AllNotesOnly | Converter.py:330-361 | only note objects of the payload's measures are collected |
| Tuning.MaxStringIndex | Converter.py:412-418 | the largest string index named by a non-rest note, or -1; both bounds and attainment |
| Tuning.GuessStringCount | Converter.py:407-420 | a positive `strings` field wins; otherwise the count exceeds every named string index and is attained by one |
| Tuning.FallbackParameters | Converter.py:423-441 | positive configured values win; otherwise the top is 43 for four strings or fewer, else 64, and the interval is 5 |
| Tuning.DefaultTuning | Converter.py:444-450 | one pitch per guessed string, starting at the top pitch and falling by the interval |
| Tuning.Descending | Converter.py:450 | count pitches from the top, each the interval below the one before |
| Tuning.DescendingAt | Converter.py:450 | string i of the synthesised tuning is top − interval·i |
| Tuning.TuningCoversNotes | Converter.py:453-458 | without a usable tuning or a `strings` field, the synthesised tuning has a pitch for every string index a non-rest note names |
| Tuning.SixStringExample | Converter.py:444-458 | a track with no tuning and a note on string 5 gets 64, 59, 54, 49, 44, 39 |
| Beats.QuarterDuration | Converter.py:107-116 | duration·den = 4·num for a well-formed pair with den ≠ 0, else 1 |
| Beats.DefaultDurationIsQuarter | Converter.py:108 | a missing duration is the default [1, 4], one quarter |
| Beats.Retained | Converter.py:129-143 | each retained entry is on the tuning with pitch = open string + fret; nothing is retained exactly when no note is usable |
| Beats.RetainedOne | Converter.py:129-143 | one note contributes its pitch (open string + fret) and its position when usable, nothing otherwise |
| Beats.RetainedAppend | Converter.py:129-143 | retaining distributes over concatenation: every usable note is kept, in beat order |
| Beats.Arrange | Converter.py:148-162 | the retained notes stably sorted by pitch, ascending and on the tuning; the lone pitch 0 is a rest |
| Beats.StaysOnTuning | Converter.py:148 | a reordering of retained notes keeps each on the tuning with its pitch |
| Beats.BeatToChord | Converter.py:119-162 | a rest exactly when flagged, when nothing is usable, or when the only usable note has pitch 0 (the library's `Chord(0, d)`); otherwise ascending pitches, each open string + fret, muted ones marked "x", a stable permutation of the usable notes |
| Beats.AnyStaccato | Converter.py:470-475 | true exactly when a sounding note is flagged staccato |
| Beats.AnyHammerPull | Converter.py:470-477 | true exactly when a sounding note is flagged hammer-on/pull-off |
| Beats.FirstSlide | Converter.py:479-481 | the stripped, lower-cased kind of the first sounding note with a non-blank slide; None exactly when there is none |
| Beats.BeatEffects | Converter.py:461-483 | staccato and hammer-on/pull-off exactly when a sounding note is flagged; no slide kind exactly when no sounding note has a non-blank one |
| Beats.MinOf | Converter.py:497 | the minimum is in the list and below every element |
| Beats.LowestPitch | Converter.py:490-497 | the lowest pitch of a sounding chord; None exactly for a rest or no pitches |
| Linker.TabMarkersNameLowestNote | Converter.py:165-177 | `TabMarkers`: a rest gets no tab markers; a sounding chord gets string = first position + 1 and fret, or 0 when muted, of the note of its lowest pitch |
| Linker.FirstIsLowest | Converter.py:169 | in an ascending chord the first position plays the lowest pitch |
| Linker.AddMarkers | Converter.py:618 | `add_x` on an appended chord appends markers to that chord only |
| Linker.OwnMarkers | Converter.py:612-615 | a chord's own markers are its tab markers followed by exactly one staccato marker when it sounds and a note of its beat is staccato, none otherwise; no link end, and nothing for a rest |
| Linker.StartLinks | Converter.py:617-624 | starting links keeps the number of chords |
| Linker.LinkStep | Converter.py:605-610 | a beat that is not an object changes nothing: state, chords and pending sources; the state stays well formed |
| Linker.CountEnds | Converter.py:500-525 | the ends of a list of links hold each kind as often as the list, on their side only |
| Linker.CountOwnEnds | Converter.py:500-525 | the ends on one side count each kind as often as the list holds it |
| Linker.StartLinksOnLast | Converter.py:617-624 | with the sources on the last chord, only that chord changes, gaining the start ends |
| Linker.StepAppends | Converter.py:637 | a step appends exactly the chord with its new markers |
| Linker.StepKeepsEarlier | Converter.py:617-637 | a step leaves every chord before the last unchanged |
| Linker.NewChordEnds | Converter.py:617-624 | the new chord carries one stop end per link made to it, and no start end |
| Linker.LastChordEnds | Converter.py:617-624 | the last chord gains one start end per link made to the new chord |
| Linker.PairedAfterAppend | Converter.py:617-637 | appending a chord that stops the links the last chord starts keeps every link paired |
| Linker.NewChordAllEnds | Converter.py:617-624 | the new chord's link ends for every kind and side |
| Linker.LastChordAllEnds | Converter.py:617-624 | the last chord's added link ends for every kind and side |
| Linker.StepAppendsLinks | Converter.py:617-637 | a step appends a chord stopping exactly the links whose starts it adds to the chord before it |
| Linker.StepLinksPaired | Converter.py:617-637 | a step keeps every link start matched by a stop on the next chord |
| Linker.RestGetsNothing | Converter.py:617-624 | a rest is linked to nothing and gets no markers |
| Linker.StepKeepsLast | Converter.py:617-637 | a step keeps the last chord, and a rest there unchanged |
| Linker.StepRestsBare | Converter.py:612-637 | a step keeps rests free of markers and sounding chords pitched |
| Linker.AppendKeepsBare | Converter.py:612-637 | appending a bare rest or a pitched chord keeps rests bare and chords pitched |
| Linker.StepChord | Converter.py:612-637 | the chord is appended after all earlier chords and the state stays well formed; what the step links and leaves pending is stated by StepChordInvariant, StepAppends, StepKeepsEarlier, HammerPullRule and SlideRule |
| Linker.StepChordInvariant | Converter.py:605-637 | a step keeps the invariant; after a sounding chord, what is pending is exactly what its notes ask for |
| Linker.HammerPullCounts | Converter.py:500-514 | `HammerPullKinds`: one slur plus one hammer-on if the lowest pitch does not fall, else one pull-off |
| Linker.SlideCounts | Converter.py:517-525 | `SlideKinds`: one glissando, one slide, and a slur exactly for "legato" |
| Linker.HammerPullTurns | Converter.py:500-514 | the chord after a hammer-on/pull-off source stops one hammer-on or one pull-off, by pitch direction |
| Linker.HammerPullSlurs | Converter.py:500-502 | that chord stops one slur, two with a pending legato slide |
| Linker.HammerPullRule | Converter.py:500-514 | the hammer-on/pull-off rule, all three counts together |
| Linker.SlideLines | Converter.py:517-522 | the chord after a lone slide source stops one glissando and one slide and no hammer-on or pull-off |
| Linker.SlideRule | Converter.py:517-525 | the slide rule, with a slur exactly for "legato" |
| Linker.RestClears | Converter.py:632-637 | a rest clears everything pending, is appended bare and touches no earlier chord |
| Linker.LinkStepInvariant | Converter.py:605-637 | a beat keeps the invariant |
| Linker.LinkAll | Converter.py:601-637 | the beat loop from a fresh state leaves a well-formed state |
| Linker.LinkAllInvariant | Converter.py:601-637 | the beat loop keeps the invariant from the start of every measure |
| Linker.StepKeepsChords | Converter.py:617-637 | a step appends its chord and changes no chord already appended |
| Linker.LinkAllChords | Converter.py:605-637 | every beat object appends exactly its own chord, in order; other beats append nothing |
| Linker.LinkStepKeepsChords | Converter.py:605-637 | a beat appends its chord when it is an object and keeps the chords before it |
| Linker.Chords | Converter.py:605-609 | at most one chord per beat |
| Linker.LinksJoinSoundingNeighbours | Converter.py:617-637 | a chord that starts a link sounds and is followed in its measure by a sounding chord that stops it |
| Measures.WithIndexFromKey | Converter.py:536-541 | a measure keeps its own index, else takes its key |
| Measures.KeyedMeasures | Converter.py:531-543 | only object values yield measures, every one of them present |
| Measures.KeyedMeasuresEmpty | Converter.py:531-546 | a keyed object yields no measure exactly when none of its values is an object |
| Measures.KeyedMeasuresPrefix | Converter.py:533-543 | the measures of a prefix of the keys are a prefix of the measures |
| Measures.KeyedMeasureAt | Converter.py:533-542 | each object value is kept, after those before it, with its index or its key |
| Measures.NormalizeMeasures | Converter.py:529-546 | measures that survive are never empty |
| Measures.NormalizeMeasuresFails | Converter.py:545-546 | the validation error is raised exactly for a missing field, an empty list, or a keyed object without an object value |
| Measures.Objects | Converter.py:561 | a measure is kept exactly when it is an object of the list; never more than the items |
| Measures.ObjectsAppend | Converter.py:561 | taking the objects distributes over concatenation: they keep their order |
| Measures.SortMeasuresOrders | Converter.py:560-563 | `SortMeasures`: a stable permutation of the measure objects with indices never falling |
| Measures.ValidSignature | Converter.py:567-577 | a signature is valid exactly when both numbers are positive |
| Measures.LastValid | Converter.py:565-639 | the last valid signature so far, None exactly when there is none |
| Measures.TimeAt | Converter.py:579-584 | the first measure always states a valid signature; later ones only valid ones |
| Measures.InForceIsLastValid | Converter.py:579-639 | the signature in force is the last valid one so far, or 4/4 |
| Measures.RestatesOnlyTheDefault | Converter.py:579-584 | a later measure restates the signature in force only for a valid 4/4 after measures with none |
| Measures.InForceBefore | Converter.py:579-639 | the signature in force before measure i is the last valid one before it, or 4/4 |
| Measures.TimeExamples | Converter.py:579-584 | 3/4, none, 3/4 states only the first; none, 4/4 states 4/4 twice |
| Assembly.MeasureBody | Converter.py:588-599 | a measure whose first voice has no beats is one 4-quarter rest |
| Assembly.MeasureBodyLinked | Converter.py:601-637 | every measure keeps rests bare, chords pitched and links paired within the measure |
| Assembly.MeasureBodyChords | Converter.py:605-637 | a measure with beats has one chord per beat object |
| Assembly.AssembleFirst | Converter.py:566-639 | measure i of the part is the i-th sorted measure's stated time and chords |
| Assembly.AssembleNext | Converter.py:566-639 | one more measure appends the next measure's time and chords |
| Assembly.Assemble | Converter.py:566-639 | one part measure per sorted measure, with its stated time and its chords |
| Assembly.ConvertShape | Converter.py:528-639 | `Convert`: fails exactly without usable measures; otherwise one measure per measure object, the first stating a time |
| Assembly.WithCurrent | Converter.py:637 | replacing the last measure's chords keeps the other measures |
| Assembly.WithCurrentTwice | Converter.py:637 | replacing the last measure's chords twice keeps the second |
| Assembly.Part.constructor | Converter.py:557 | a new part has no measures |
| Assembly.Part.AddMeasure | Converter.py:579-584 | appends an empty measure stating the time given |
| Assembly.Part.AddChord | Converter.py:637 | appends a chord to the current measure only |
| Assembly.Part.AddX | Converter.py:618 | adds markers to one appended chord of the current measure only |
| Assembly.LinkHammerPull | Converter.py:617-619 | the hammer-on/pull-off source gets the start ends, the stops are returned and the source is consumed, all only when both chords sound |
| Assembly.LinkSlide | Converter.py:621-624 | the same for the slide source, its kind consumed with it |
| Assembly.LinkPending | Converter.py:617-624 | both links done in place equal the pure StartLinks of the state |
| Assembly.LinksOfSources | Converter.py:617-624 | each link is decided by its own source, before or after the other's starts are added |
| Assembly.OwnChordMarkers | Converter.py:612-615 | the markers built in place are the tab markers, then one staccato marker exactly when the chord sounds and its beat is staccato |
| Assembly.AppendChord | Converter.py:609-637 | the part after a chord is appended equals the chords of the pure step |
| Assembly.StepBeat | Converter.py:605-637 | one beat in place yields exactly the pure step's chords and pending sources |
| Assembly.LinkBeats | Converter.py:601-637 | the beat loop in place yields exactly the chords of the pure linker from a fresh state |
| Assembly.NormalizeKeyed | Converter.py:531-543 | the normalisation loop yields the keyed measures |
| Assembly.AppendMeasure | Converter.py:579-599 | adds one measure with its time and its chords |
| Assembly.StatedTime | Converter.py:565-584 | the time a measure states and the last valid signature after it |
| Assembly.AddMeasures | Converter.py:565-639 | the measure loop in place builds exactly the assembled measures |
| Assembly.AddMeasureAt | Converter.py:565-639 | one iteration adds measure i as assembled and carries the last valid signature on |
| Assembly.ConvertTrack | Converter.py:528-558 | the conversion in place equals the pure conversion, error case included |
| MusicXml.FindFrom | Converter.py:199 | the first child with the tag at or after a position, None exactly when there is none |
| MusicXml.Find | Converter.py:199 | `find`: the first child with the tag, None exactly when there is none |
| MusicXml.PitchToMidi | Converter.py:227-251 | a MIDI number exactly when the step is one of C to B and the octave and alter texts parse as integers; None otherwise |
| MusicXml.SharpSpelling | Converter.py:232-240 | each pitch class is a step plus an alter |
| MusicXml.PitchTexts | Converter.py:228-230 | step, alter and octave children are read back as their texts |
| MusicXml.PitchToMidiReads | Converter.py:227-251 | a pitch reading as step, octave and alter is (octave + 1)·12 + semitone + alter |
| MusicXml.SpellPitchStep | Converter.py:228 | the step of a spelled pitch reads as its spelling |
| MusicXml.SpellPitchOctave | Converter.py:229 | the octave of a spelled pitch reads as the MIDI octave less one |
| MusicXml.SpellPitchAlter | Converter.py:230 | the alter of a spelled pitch reads as its spelling |
| MusicXml.PitchToMidiSpellPitch | Converter.py:227-251 | reading a spelled pitch gives back its MIDI number, for every integer |
| MusicXml.MiddleC | Converter.py:227-251 | C4 with no alter is 60 |
| MusicXml.InferFrom | Converter.py:254-265 | the smallest non-negative fret among the later strings, the lowest string breaking ties |
| MusicXml.InferStringFret | Converter.py:254-265 | smallest fret, lowest string on a tie, open string + fret = pitch; None exactly below every open string |
| MusicXml.InferOpenFirstString | Converter.py:254-265 | E4 on a standard guitar is string 0, fret 0 |
| MusicXml.InferOpenSecondString | Converter.py:254-265 | B3 is string 1 open, not fret 4 of string 2 |
| MusicXml.InferBelowGuitar | Converter.py:261-262 | a pitch below every open string has no position |
| MusicXml.Locate | Converter.py:275-284 | `find`, or a new child appended when missing, and where it is |
| MusicXml.SetText | Converter.py:307-317 | setting a child's text never removes children |
| MusicXml.SetTextFinds | Converter.py:307-317 | the child then holds the text, is appended only when missing, and nothing else changes |
| MusicXml.Inferred | Converter.py:289-305 | the inferred string + 1 and fret when the note has a readable pitch, there is a tuning and a string plays it; string 1, fret 0 otherwise |
| MusicXml.InferredPlays | Converter.py:289-305 | when a string can play the readable pitch, the inferred string plays it at the inferred fret and no string needs a smaller one; else string 1, fret 0 |
| MusicXml.TechnicalChildrenOf | Converter.py:275-284 | an existing technical child's children are the ones read; a missing one reads as empty |
| MusicXml.TechnicalOfWith | Converter.py:275-281 | replacing the technical children leaves a technical child with exactly them and every other child found where it was |
| MusicXml.AppendKeepsFind | Converter.py:277 | appending a child with another tag keeps every find |
| MusicXml.FilledReadsBack | Converter.py:307-317 | the written string and fret texts read back as the numbers written |
| MusicXml.WithStringFretFills | Converter.py:268-317 | `WithStringFret`: a non-rest note ends with a string and a fret child; one that had both is unchanged |
| MusicXml.WithStringFretTexts | Converter.py:289-317 | a note lacking one gets the inferred string number and fret, or fret 0 when dead |
| MusicXml.FilledKeeps | Converter.py:307-317 | writing the string and fret texts keeps every other technical child in place |
| MusicXml.WithStringFretKeeps | Converter.py:268-282 | only the `notations` child changes: every other child of the note (pitch, notehead, duration, ...) is kept in place, and at most one `notations` child is appended |
| MusicXml.WithStringFretKeepsInside | Converter.py:275-282 | an existing `notations` child stays in place, and every child of it other than `technical` is kept in place |
| MusicXml.WithStringFretKeepsTechnical | Converter.py:279-317 | an existing `technical` child keeps every child other than `string` and `fret` in place |
| MusicXml.FindAfterUpdate | Converter.py:309 | setting a child's text keeps every find |
| MusicXml.WithStringFretIdempotent | Converter.py:283-287 | giving a note string and fret children twice is giving them once |
| MusicXml.RestKept | Converter.py:269-270 | the pass keeps a note a rest or not a rest |
| MusicXml.InsertionIndex | Converter.py:215-220 | the index of the first child with a trailing tag, else the end |
| MusicXml.Unpitch | Converter.py:207-222 | removing the pitch and inserting the unpitched element keeps the number of children |
| MusicXml.UnpitchLayout | Converter.py:207-222 | where each child goes when the pitch is removed and the unpitched element inserted |
| MusicXml.WithUnpitchedPlaces | Converter.py:198-222 | `WithUnpitched`: a converted dead note has the unpitched element after every child outside the trailing set and before the first one in it, the others kept in order less the pitch |
| MusicXml.UnpitchPlaces | Converter.py:207-222 | the same for removing any child |
| MusicXml.WithUnpitchedKeeps | Converter.py:199-205 | a note that is not dead or has no pitch is unchanged |
| MusicXml.NoteheadSurvives | Converter.py:199-222 | conversion keeps the notehead text |
| MusicXml.UnpitchKeepsTrailing | Converter.py:207-222 | conversion keeps the text of the first child of every trailing tag |
| MusicXml.UnpitchAddsNoTag | Converter.py:207-222 | conversion adds no child of a tag the note lacks |
| MusicXml.UnpitchMovesTag | Converter.py:207-222 | the first trailing child moves by the removal and the insertion before it |
| MusicXml.RemoveMovesTag | Converter.py:207 | removing another child moves the first child with a tag down only when it came after |
| MusicXml.InsertMovesTag | Converter.py:215-222 | inserting the unpitched element moves the first trailing child up by one |
| MusicXml.InsertBeforeFound | Converter.py:222 | inserting before the first child with a tag moves it up by one |
| MusicXml.WithUnpitchedIdempotent | Converter.py:198-222 | converting twice is converting once for a note with at most one pitch |
| MusicXml.UnpitchRemovesPitch | Converter.py:207 | after removing its only pitch a note has none |
| MusicXml.NoteElement.constructor | Converter.py:198 | a note element holds the children given |
| MusicXml.NoteElement.EnsureStringFret | Converter.py:268-317 | the note edited in place ends with the children of the pure pass |
| MusicXml.NoteElement.ConvertDeadToUnpitched | Converter.py:198-222 | the note edited in place ends with the children of the pure conversion |
| MusicXml.FindInsertionIndex | Converter.py:215-220 | the insertion loop finds the index of the first child with a trailing tag, else the end |
| MusicXml.EnsureStringFretForAll | Converter.py:320-327 | every note of the tree, and only they, gets the pure pass |
| MusicXml.ConvertDeadNotes | Converter.py:194-225 | every note of the tree gets the pure conversion |
| MusicXml.PostProcess | Converter.py:654-659 | string/fret for every note, then unpitched dead notes exactly in unpitched mode |

## Left out

- File and process I/O are not modelled:
  - configuration loading, the output directory, `main`;
  - `score.export_xml`, `ET.parse` and `tree.write`.
  The configuration and the payload are parameters. The post-processing passes work on the note elements of the tree, given as a sequence of distinct objects in document order.
- `_resolve_configured_path` and `_patch_musicscore_rest_comparison` are not part of this model. A rest is its own `Chord` constructor, so no rest is ever compared pitch-wise.
- The musicscore `Score`/`Part`/`Chord` internals are not modelled: measure filling, beaming, quantisation and XML writing. A chord carries its markers as a list, and a measure carries its stated time and its chords.
- The part's name and instrument, and the track, song and revision ids, are not modelled, apart from the revision id as the editor default.
- Floating point is not modelled. Durations are exact reals. Tuning values, string and fret indices, the alter and the configuration numbers are integers, so `int(float)` truncation and float keys are not modelled.
- Python typing quirks are not modelled: a boolean passing as an integer, and `int()` accepting strings with blanks, signs or underscores in keys, indices and the measure index.
  - `Measures.IndexKey` takes a missing or non-integer index as 0. The source raises on an index that `int()` rejects.
  - A keyed measure whose `index` field is present but not an integer takes its key in the model. The source keeps the field.
- `Text.IsAlnum`, `Text.Lower` and `Text.Upper` use ASCII rules, not Unicode `isalnum`, `lower` and `upper`. `Text.Strip` strips the ASCII blanks space, tab, newline, carriage return, vertical tab and form feed.
- `MusicXml.NoteElement.EnsureStringFret` does not model identity of shared subtrees: the note's children are values. Aliasing inside a note is not captured.
- `Tuning.NormalizeList`: entries with several numeric fields use the first in the order value, note, pitch, midi, as the source does. Non-numeric fields are given as None before the model reads them.
