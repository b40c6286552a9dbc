/** Tuning resolution: the open-string pitches (MIDI numbers), index 0 being
    the highest string. A tuning the payload supplies wins when it yields at
    least one value; otherwise one is synthesised from a string count, a top
    pitch and a descending interval. */
module Tuning {
  import opened Wrappers
  import opened Payload
  import Sorting

  /** The number an entry stands for, if any. */
  function EntryValue(e: TuningEntry): Option<int> {
    match e
    case Number(n) => Some(n)
    case Fields(value, note, pitch, midi) =>
      if value.Some? then value
      else if note.Some? then note
      else if pitch.Some? then pitch
      else midi
    case Unusable => None
  }

  /** A tuning list: its usable entries, in order. */
  function NormalizeList(entries: seq<TuningEntry>): (r: seq<int>)
    ensures |r| <= |entries|
    ensures forall i :: 0 <= i < |entries| && EntryValue(entries[i]).Some? ==> EntryValue(entries[i]).value in r
    ensures forall v | v in r :: exists i :: 0 <= i < |entries| && EntryValue(entries[i]) == Some(v)
  {
    if entries == [] then []
    else
      var rest := NormalizeList(entries[1..]);
      assert forall i :: 1 <= i < |entries| ==> entries[i] == entries[1..][i - 1];
      match EntryValue(entries[0])
      case Some(v) => [v] + rest
      case None => rest
  }

  /** Normalising a list keeps its order: it distributes over concatenation. */
  lemma {:induction false} NormalizeListAppend(a: seq<TuningEntry>, b: seq<TuningEntry>)
    ensures NormalizeList(a + b) == NormalizeList(a) + NormalizeList(b)
  {
    if a != [] {
      assert (a + b)[0] == a[0] && (a + b)[1..] == a[1..] + b;
      NormalizeListAppend(a[1..], b);
      if EntryValue(a[0]).Some? {
        var v := EntryValue(a[0]).value;
        assert [v] + (NormalizeList(a[1..]) + NormalizeList(b)) == ([v] + NormalizeList(a[1..])) + NormalizeList(b);
      }
    } else {
      assert a + b == b;
    }
  }

  /** A keyed tuning's usable entries as (string index, pitch), in insertion order. */
  function KeyedValues(pairs: seq<(Option<int>, TuningEntry)>): (r: seq<(int, int)>)
    ensures |r| <= |pairs|
    ensures forall i :: 0 <= i < |pairs| && pairs[i].0.Some? && EntryValue(pairs[i].1).Some? ==>
      (pairs[i].0.value, EntryValue(pairs[i].1).value) in r
    ensures forall e | e in r :: exists i :: 0 <= i < |pairs| && pairs[i].0 == Some(e.0) && EntryValue(pairs[i].1) == Some(e.1)
  {
    if pairs == [] then []
    else
      var rest := KeyedValues(pairs[1..]);
      assert forall i :: 1 <= i < |pairs| ==> pairs[i] == pairs[1..][i - 1];
      match (pairs[0].0, EntryValue(pairs[0].1))
      case (Some(k), Some(v)) => [(k, v)] + rest
      case _ => rest
  }

  /** A keyed tuning: its usable values ordered by string index (stably). */
  function NormalizeMap(pairs: seq<(Option<int>, TuningEntry)>): (r: seq<int>)
    ensures |r| == |KeyedValues(pairs)|
  {
    Sorting.Items(Sorting.StableSort(KeyedValues(pairs)))
  }

  /** A keyed tuning's values are its usable pairs stably sorted by string
      index: the pairs in key order, with the same pairs, and pairs with
      equal keys in their insertion order. */
  lemma NormalizeMapOrdered(pairs: seq<(Option<int>, TuningEntry)>)
    ensures exists s ::
      && Sorting.SortedByKey(s)
      && multiset(s) == multiset(KeyedValues(pairs))
      && (forall k :: Sorting.WithKey(s, k) == Sorting.WithKey(KeyedValues(pairs), k))
      && NormalizeMap(pairs) == Sorting.Items(s)
  {
    var s := Sorting.StableSort(KeyedValues(pairs));
    assert NormalizeMap(pairs) == Sorting.Items(s);
  }

  /** Keys given in ascending order leave the values in the order given. */
  lemma MapInKeyOrder(pairs: seq<(Option<int>, TuningEntry)>)
    requires Sorting.SortedByKey(KeyedValues(pairs))
    ensures NormalizeMap(pairs) == Sorting.Items(KeyedValues(pairs))
  {
    Sorting.SortSorted(KeyedValues(pairs));
  }

  /** Some entry of the tuning stands for a number (in a keyed tuning, under
      a key that parses as an integer). */
  predicate HasUsableEntry(spec: TuningSpec) {
    match spec
    case NoTuning => false
    case TuningList(entries) => exists i :: 0 <= i < |entries| && EntryValue(entries[i]).Some?
    case TuningMap(pairs) => exists i :: 0 <= i < |pairs| && pairs[i].0.Some? && EntryValue(pairs[i].1).Some?
  }

  /** The tuning the payload supplies: empty exactly when no entry is usable. */
  function NormalizeTuning(spec: TuningSpec): (r: seq<int>)
    ensures r == [] <==> !HasUsableEntry(spec)
  {
    match spec
    case NoTuning => []
    case TuningList(entries) =>
      var r := NormalizeList(entries);
      assert r != [] ==> r[0] in r;
      r
    case TuningMap(pairs) =>
      var kept := KeyedValues(pairs);
      assert kept != [] ==> kept[0] in kept;
      NormalizeMap(pairs)
  }

  function PresentNotes(s: seq<Option<Note>>): (r: seq<Note>)
    ensures forall n :: Some(n) in s <==> n in r
  {
    if s == [] then []
    else (if s[0].Some? then [s[0].value] else []) + PresentNotes(s[1..])
  }

  function BeatNotes(b: Option<Beat>): seq<Note> {
    if b.Some? then PresentNotes(b.value.notes) else []
  }

  function NotesOfBeats(bs: seq<Option<Beat>>): (r: seq<Note>)
    ensures forall b, n :: Some(b) in bs && Some(n) in b.notes ==> n in r
  {
    if bs == [] then []
    else
      var rest := NotesOfBeats(bs[1..]);
      assert forall b :: Some(b) in bs ==> Some(b) == bs[0] || Some(b) in bs[1..];
      BeatNotes(bs[0]) + rest
  }

  function NotesOfVoices(vs: seq<Option<Voice>>): (r: seq<Note>)
    ensures forall v, b, n :: Some(v) in vs && Some(b) in v.beats && Some(n) in b.notes ==> n in r
  {
    if vs == [] then []
    else
      var rest := NotesOfVoices(vs[1..]);
      assert forall v :: Some(v) in vs ==> Some(v) == vs[0] || Some(v) in vs[1..];
      (if vs[0].Some? then NotesOfBeats(vs[0].value.beats) else []) + rest
  }

  /** Every note object of every beat of every voice (not only the first) of
      every measure object, in document order. */
  function AllNotes(ms: seq<Option<Measure>>): (r: seq<Note>)
    ensures forall m, v, b, n :: Some(m) in ms && Some(v) in m.voices && Some(b) in v.beats && Some(n) in b.notes ==> n in r
  {
    if ms == [] then []
    else
      var rest := AllNotes(ms[1..]);
      assert forall m :: Some(m) in ms ==> Some(m) == ms[0] || Some(m) in ms[1..];
      (if ms[0].Some? then NotesOfVoices(ms[0].value.voices) else []) + rest
  }

  /** Only note objects of the beats are collected. */
  lemma {:induction false} NotesOfBeatsOnly(bs: seq<Option<Beat>>, n: Note)
    requires n in NotesOfBeats(bs)
    ensures exists b :: Some(b) in bs && Some(n) in b.notes
  {
    if n in BeatNotes(bs[0]) {
      assert Some(bs[0].value) in bs;
    } else {
      NotesOfBeatsOnly(bs[1..], n);
      var b :| Some(b) in bs[1..] && Some(n) in b.notes;
      assert Some(b) in bs;
    }
  }

  /** Only note objects of the voices' beats are collected. */
  lemma {:induction false} NotesOfVoicesOnly(vs: seq<Option<Voice>>, n: Note)
    requires n in NotesOfVoices(vs)
    ensures exists v, b :: Some(v) in vs && Some(b) in v.beats && Some(n) in b.notes
  {
    if vs[0].Some? && n in NotesOfBeats(vs[0].value.beats) {
      NotesOfBeatsOnly(vs[0].value.beats, n);
      assert Some(vs[0].value) in vs;
    } else {
      NotesOfVoicesOnly(vs[1..], n);
      var v, b :| Some(v) in vs[1..] && Some(b) in v.beats && Some(n) in b.notes;
      assert Some(v) in vs;
    }
  }

  /** Only note objects of the payload's measures are collected. */
  lemma {:induction false} AllNotesOnly(ms: seq<Option<Measure>>, n: Note)
    requires n in AllNotes(ms)
    ensures exists m, v, b :: Some(m) in ms && Some(v) in m.voices && Some(b) in v.beats && Some(n) in b.notes
  {
    if ms[0].Some? && n in NotesOfVoices(ms[0].value.voices) {
      NotesOfVoicesOnly(ms[0].value.voices, n);
      assert Some(ms[0].value) in ms;
    } else {
      AllNotesOnly(ms[1..], n);
      var m, v, b :| Some(m) in ms[1..] && Some(v) in m.voices && Some(b) in v.beats && Some(n) in b.notes;
      assert Some(m) in ms;
    }
  }

  /** A note that names a string: not a rest, with an integer string index. */
  predicate NamesString(n: Note) {
    !n.rest && n.str.Some?
  }

  /** The largest string index named by a note, or -1 if none is non-negative. */
  function MaxStringIndex(notes: seq<Note>): (r: int)
    ensures r >= -1
    ensures forall n | n in notes && NamesString(n) :: n.str.value <= r
    ensures r >= 0 ==> exists n | n in notes :: NamesString(n) && n.str.value == r
  {
    if notes == [] then -1
    else
      var m := MaxStringIndex(notes[1..]);
      assert forall n | n in notes :: n == notes[0] || n in notes[1..];
      if NamesString(notes[0]) && notes[0].str.value > m then notes[0].str.value else m
  }

  /** The string count: a positive `strings` field, else one more than the
      largest string index any non-rest note names, else 0. */
  function GuessStringCount(strings: Option<int>, ms: seq<Option<Measure>>): (r: nat)
    ensures strings.Some? && strings.value > 0 ==> r == strings.value
    ensures !(strings.Some? && strings.value > 0) ==>
      && (forall n | n in AllNotes(ms) && NamesString(n) :: n.str.value < r)
      && (r > 0 ==> exists n | n in AllNotes(ms) :: NamesString(n) && n.str.value == r - 1)
  {
    if strings.Some? && strings.value > 0 then strings.value
    else
      var m := MaxStringIndex(AllNotes(ms));
      if m >= 0 then m + 1 else 0
  }

  /** (top pitch, interval): each the configured value when positive, else
      43 (four strings or fewer) or 64 as top, and 5 as interval. */
  function FallbackParameters(config: Config, count: int): (r: (int, int))
    ensures r.0 > 0 && r.1 > 0
    ensures config.topStringMidi.Some? && config.topStringMidi.value > 0 ==> r.0 == config.topStringMidi.value
    ensures config.intervalSemitones.Some? && config.intervalSemitones.value > 0 ==> r.1 == config.intervalSemitones.value
    ensures !(config.topStringMidi.Some? && config.topStringMidi.value > 0) ==> r.0 == (if count <= 4 then 43 else 64)
    ensures !(config.intervalSemitones.Some? && config.intervalSemitones.value > 0) ==> r.1 == 5
  {
    var interval := if config.intervalSemitones.Some? && config.intervalSemitones.value > 0
      then config.intervalSemitones.value else 5;
    var top := if config.topStringMidi.Some? && config.topStringMidi.value > 0
      then config.topStringMidi.value
      else if count <= 4 then 43 else 64;
    (top, interval)
  }

  /** The synthesised tuning: one pitch per string, starting at the top pitch
      and falling by the interval from each string to the next. */
  function DefaultTuning(strings: Option<int>, ms: seq<Option<Measure>>, config: Config): (r: seq<int>)
    ensures |r| == GuessStringCount(strings, ms)
    ensures |r| > 0 ==> r[0] == FallbackParameters(config, |r|).0
    ensures forall i :: 0 < i < |r| ==> r[i] == r[i - 1] - FallbackParameters(config, |r|).1
  {
    var count := GuessStringCount(strings, ms);
    if count == 0 then []
    else
      var (top, interval) := FallbackParameters(config, count);
      Descending(top, interval, count)
  }

  /** count pitches from top down, the interval apart: string i gets
      top - interval * i. */
  function Descending(top: int, interval: int, count: nat): (r: seq<int>)
    ensures |r| == count
    ensures count > 0 ==> r[0] == top
    ensures forall i :: 0 < i < |r| ==> r[i] == r[i - 1] - interval
    decreases count
  {
    if count == 0 then []
    else
      var rest := Descending(top - interval, interval, count - 1);
      assert forall i :: 1 < i < count ==> ([top] + rest)[i] == rest[i - 1];
      [top] + rest
  }

  /** String i of the synthesised tuning is top - interval * i. */
  lemma {:induction false} DescendingAt(top: int, interval: int, count: nat, i: nat)
    requires i < count
    ensures Descending(top, interval, count)[i] == top - interval * i
    decreases i
  {
    if i > 0 {
      DescendingAt(top, interval, count, i - 1);
      assert interval * i == interval * (i - 1) + interval;
    }
  }

  /** The tuning of a track: the supplied one when some entry is usable,
      else the synthesised one. */
  function ResolveTuning(track: Track, ms: seq<Option<Measure>>, config: Config): (r: seq<int>)
    ensures HasUsableEntry(track.tuning) ==> r == NormalizeTuning(track.tuning) && r != []
    ensures !HasUsableEntry(track.tuning) ==> r == DefaultTuning(track.strings, ms, config)
  {
    var normalized := NormalizeTuning(track.tuning);
    if normalized != [] then normalized else DefaultTuning(track.strings, ms, config)
  }

  /** Without a usable tuning and without a `strings` count, the synthesised
      tuning has a pitch for every string index a non-rest note names. */
  lemma TuningCoversNotes(track: Track, ms: seq<Option<Measure>>, config: Config,
                          m: Measure, v: Voice, b: Beat, n: Note)
    requires NormalizeTuning(track.tuning) == []
    requires !(track.strings.Some? && track.strings.value > 0)
    requires Some(m) in ms && Some(v) in m.voices && Some(b) in v.beats && Some(n) in b.notes
    requires NamesString(n) && n.str.value >= 0
    ensures n.str.value < |ResolveTuning(track, ms, config)|
  {
  }

  /** A six-string track with no tuning, whose only note is on string 5,
      gets the guitar-like tuning 64, 59, 54, 49, 44, 39. */
  lemma SixStringExample(config: Config)
    requires config == Config(None, None)
    ensures var n := Note(false, Some(5), Some(0), false, false, false, None);
            var ms := [Some(Measure(None, None, [Some(Voice([Some(Beat(false, None, [Some(n)]))]))]))];
            ResolveTuning(Track(NoTuning, None, MeasureList(ms), None, None, map[], None), ms, config)
              == [64, 59, 54, 49, 44, 39]
  {
    var n := Note(false, Some(5), Some(0), false, false, false, None);
    var b := Beat(false, None, [Some(n)]);
    var v := Voice([Some(b)]);
    var ms := [Some(Measure(None, None, [Some(v)]))];
    assert PresentNotes(b.notes) == [n];
    assert NotesOfBeats(v.beats) == [n];
    assert NotesOfVoices([Some(v)]) == [n];
    assert AllNotes(ms) == [n];
    assert MaxStringIndex([n]) == 5;
    assert GuessStringCount(None, ms) == 6;
    assert FallbackParameters(config, 6) == (64, 5);
    assert DefaultTuning(None, ms, config) == Descending(64, 5, 6);
    SixDescending();
  }

  /** Six strings from 64 down, 5 semitones apart. */
  lemma SixDescending()
    ensures Descending(64, 5, 6) == [64, 59, 54, 49, 44, 39]
  {
    var r := Descending(64, 5, 6);
    DescendingAt(64, 5, 6, 0);
    DescendingAt(64, 5, 6, 1);
    DescendingAt(64, 5, 6, 2);
    DescendingAt(64, 5, 6, 3);
    DescendingAt(64, 5, 6, 4);
    DescendingAt(64, 5, 6, 5);
  }
}
