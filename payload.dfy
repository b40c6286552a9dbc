/** The track payload as the converter reads it. A field that is missing or
    of the wrong JSON type is None; an item of a list that is not a JSON
    object is None. A field the converter reads as a list but that holds
    something else is given as an empty list: every reader of such a field
    treats the two alike. */
module Payload {
  import opened Wrappers

  /** One note event of a beat. `str` and `fret` are None unless integers;
      `slide` is None unless a string. Truthiness flags are booleans. */
  datatype Note = Note(
    rest: bool,
    str: Option<int>,
    fret: Option<int>,
    dead: bool,
    staccato: bool,
    hp: bool,
    slide: Option<string>)

  /** `duration` is Some((numerator, denominator)) for a two-element list,
      each part None unless a number; it is None when the field is missing
      (the default [1, 4]) or is not a two-element list. */
  datatype Beat = Beat(
    rest: bool,
    duration: Option<(Option<int>, Option<int>)>,
    notes: seq<Option<Note>>)

  datatype Voice = Voice(beats: seq<Option<Beat>>)

  /** `signature` is Some((beats, beat type)) for a two-element list of integers. */
  datatype Measure = Measure(
    index: Option<int>,
    signature: Option<(int, int)>,
    voices: seq<Option<Voice>>)

  /** An entry of a tuning: a number, or an object whose `value`, `note`,
      `pitch` and `midi` fields are read in that order. */
  datatype TuningEntry =
    | Number(n: int)
    | Fields(value: Option<int>, note: Option<int>, pitch: Option<int>, midi: Option<int>)
    | Unusable

  /** The `tuning` field: absent (or of another type), a list, or an object
      whose keys are given as the integers they parse to (None if they do not). */
  datatype TuningSpec =
    | NoTuning
    | TuningList(entries: seq<TuningEntry>)
    | TuningMap(pairs: seq<(Option<int>, TuningEntry)>)

  /** The `measures` field: a list, an object keyed like a tuning map (in
      insertion order), or absent / of another type. */
  datatype MeasuresSpec =
    | MeasureList(items: seq<Option<Measure>>)
    | MeasureMap(pairs: seq<(Option<int>, Option<Measure>)>)
    | NoMeasures

  /** The payload. `texts` holds its string-valued fields (the name aliases);
      `revisionId` is the text of a truthy `revisionId` field. */
  datatype Track = Track(
    tuning: TuningSpec,
    strings: Option<int>,
    measures: MeasuresSpec,
    deadNoteMode: Option<string>,
    deadNotesAsUnpitched: Option<bool>,
    texts: map<string, string>,
    revisionId: Option<string>)

  /** The fallback tuning parameters of the converter's configuration; None
      when missing, not a number, or when there is no configuration object. */
  datatype Config = Config(topStringMidi: Option<int>, intervalSemitones: Option<int>)
}
