/** The measure assembly of the conversion: the measures of the payload are
    normalised, sorted by index and turned into the measures of the part,
    each with the time signature it states and the chords of its first
    voice, linked by the per-measure state machine. */
module Assembly {
  import opened Wrappers
  import opened Payload
  import opened Sorting
  import opened Measures
  import opened Beats
  import opened Linker
  import Tuning
  import Metadata

  /** A measure of the part: the time signature it states, if any, and its
      chords with their markers. */
  datatype MeasureOut = MeasureOut(time: Option<(int, int)>, entries: seq<Entry>)

  /** What the conversion produces before the file is written: the score
      title, the name of the file, the tuning used, the dead-note mode of
      the post-processing and the measures of the single part. */
  datatype Score = Score(
    title: string,
    fileName: string,
    tuning: seq<int>,
    deadNoteMode: Metadata.DeadNoteMode,
    measures: seq<MeasureOut>)

  /** The validation error raised when the payload has no usable measures. */
  datatype ConvertError = MissingMeasures

  // ---------------------------------------------------------------------
  // Measure contents

  /** The beats of the first voice; empty when there is no voice or the
      first voice is not an object. */
  function PrimaryBeats(m: Measure): seq<Option<Beat>> {
    if m.voices == [] then []
    else match m.voices[0] case None => [] case Some(v) => v.beats
  }

  /** The whole-measure rest of a measure without voices or beats. */
  const WholeRest := Entry(Rest(4.0), [])

  /** The chords of a measure: one 4-quarter rest when the first voice has
      no beats, otherwise the beats linked from a fresh state. */
  function MeasureBody(m: Measure, tuning: seq<int>): (r: seq<Entry>)
    ensures PrimaryBeats(m) == [] ==> r == [WholeRest]
  {
    var beats := PrimaryBeats(m);
    if beats == [] then [WholeRest] else LinkAll(beats, tuning).entries
  }

  /** Every measure holds its links: rests carry no markers, sounding
      chords have pitches, and each link starting on a chord stops on the
      next chord of the same measure, so no link crosses a barline. */
  lemma MeasureBodyLinked(m: Measure, tuning: seq<int>)
    ensures var es := MeasureBody(m, tuning);
      RestsBare(es) && ChordsHavePitches(es) && LinksPaired(es)
  {
    var es := MeasureBody(m, tuning);
    LinkAllInvariant(PrimaryBeats(m), tuning);
    if PrimaryBeats(m) == [] {
      assert Count(WholeRest.markers, Link(Slur, Start)) == 0;
      assert forall k, side :: Count(es[0].markers, Link(k, side)) == 0;
    }
  }

  /** A measure with beats has one chord per beat that is an object. */
  lemma MeasureBodyChords(m: Measure, tuning: seq<int>)
    requires PrimaryBeats(m) != []
    ensures var es := MeasureBody(m, tuning);
      var cs := Chords(PrimaryBeats(m), tuning);
      |es| == |cs| && forall i :: 0 <= i < |es| ==> es[i].chord == cs[i]
  {
    LinkAllChords(PrimaryBeats(m), tuning);
  }

  /** Measure i of the part built from the sorted measures. */
  function MeasureAt(ms: seq<Measure>, i: nat, tuning: seq<int>): MeasureOut
    requires i < |ms|
  {
    MeasureOut(TimeAt(ms, i), MeasureBody(ms[i], tuning))
  }

  /** The first n measures of the part built from the sorted measures. */
  function AssembleFirst(ms: seq<Measure>, n: nat, tuning: seq<int>): (r: seq<MeasureOut>)
    requires n <= |ms|
    ensures |r| == n && forall i :: 0 <= i < n ==> r[i] == MeasureAt(ms, i, tuning)
  {
    if n == 0 then [] else AssembleFirst(ms, n - 1, tuning) + [MeasureAt(ms, n - 1, tuning)]
  }

  lemma AssembleNext(ms: seq<Measure>, n: nat, tuning: seq<int>, time: Option<(int, int)>)
    requires n < |ms| && time == TimeAt(ms, n)
    ensures AssembleFirst(ms, n + 1, tuning) == AssembleFirst(ms, n, tuning) + [MeasureOut(time, MeasureBody(ms[n], tuning))]
  {
  }

  /** The measures of the part built from the sorted measures. */
  function Assemble(ms: seq<Measure>, tuning: seq<int>): (r: seq<MeasureOut>)
    ensures |r| == |ms|
    ensures forall i :: 0 <= i < |ms| ==> r[i] == MeasureOut(TimeAt(ms, i), MeasureBody(ms[i], tuning))
  {
    AssembleFirst(ms, |ms|, tuning)
  }

  // ---------------------------------------------------------------------
  // The conversion

  /** The conversion of a track payload, up to the written file. */
  function Convert(track: Track, config: Config): Result<Score, ConvertError> {
    match NormalizeMeasures(track.measures)
    case None => Failure(MissingMeasures)
    case Some(ms) =>
      var tuning := Tuning.ResolveTuning(track, ms, config);
      Success(Score(
        Metadata.SongName(track),
        Metadata.OutputName(track),
        tuning,
        Metadata.ResolveDeadNoteMode(track.deadNoteMode, track.deadNotesAsUnpitched),
        Assemble(SortMeasures(ms), tuning)))
  }

  /** The conversion fails exactly when the payload has no usable measures,
      and otherwise makes one measure per measure object, in index order,
      the first stating a time signature. */
  lemma ConvertShape(track: Track, config: Config)
    ensures Convert(track, config).Failure? <==> NormalizeMeasures(track.measures).None?
    ensures Convert(track, config).Success? ==>
      var ms := SortMeasures(NormalizeMeasures(track.measures).value);
      var out := Convert(track, config).value.measures;
      && |out| == |ms|
      && (|out| > 0 ==> out[0].time.Some?)
  {
  }

  // ---------------------------------------------------------------------
  // The part, built in place

  /** The measures with the chords of the last one replaced. */
  function WithCurrent(ms: seq<MeasureOut>, entries: seq<Entry>): (r: seq<MeasureOut>)
    requires ms != []
    ensures |r| == |ms| && r[..|ms| - 1] == ms[..|ms| - 1]
    ensures r[|ms| - 1] == ms[|ms| - 1].(entries := entries)
  {
    ms[..|ms| - 1] + [ms[|ms| - 1].(entries := entries)]
  }

  /** Replacing the chords of the last measure twice keeps the second. */
  lemma WithCurrentTwice(ms: seq<MeasureOut>, a: seq<Entry>, b: seq<Entry>)
    requires ms != []
    ensures WithCurrent(WithCurrent(ms, a), b) == WithCurrent(ms, b)
  {
    assert WithCurrent(WithCurrent(ms, a), b)[..|ms| - 1] == ms[..|ms| - 1];
  }

  /** The part of the score: its measures, the last one being the one
      chords are added to. */
  class Part {
    var measures: seq<MeasureOut>

    constructor()
      ensures measures == []
    {
      measures := [];
    }

    /** The chords of the current measure. */
    function Current(): seq<Entry>
      reads this
      requires measures != []
    {
      measures[|measures| - 1].entries
    }

    /** Starts a new measure, stating the time signature when there is one. */
    method AddMeasure(time: Option<(int, int)>)
      modifies this
      ensures measures == old(measures) + [MeasureOut(time, [])]
    {
      measures := measures + [MeasureOut(time, [])];
    }

    /** Appends a chord, with its markers, to the current measure. */
    method AddChord(e: Entry)
      requires measures != []
      modifies this
      ensures measures == WithCurrent(old(measures), old(Current()) + [e])
    {
      measures := WithCurrent(measures, Current() + [e]);
    }

    /** Adds markers to chord i of the current measure, a chord already appended. */
    method AddX(i: nat, ms: seq<Marker>)
      requires measures != [] && i < |Current()|
      modifies this
      ensures measures == WithCurrent(old(measures), AddMarkers(old(Current()), i, ms))
    {
      measures := WithCurrent(measures, AddMarkers(Current(), i, ms));
    }
  }

  /** The linker state the beat loop's locals and the current measure stand for. */
  function StateOf(measures: seq<MeasureOut>, hp: Option<nat>, slide: Option<nat>, kind: Option<string>): LinkState
    requires measures != []
  {
    LinkState(measures[|measures| - 1].entries, hp, slide, kind)
  }

  /** The hammer-on/pull-off link to a chord: when the pending source and
      the chord both sound, the source gets the start ends, the chord is to
      get the stop ends, and the source is consumed. */
  method LinkHammerPull(part: Part, hp: Option<nat>, chord: Chord) returns (hp': Option<nat>, stops: seq<Marker>)
    requires part.measures != [] && (hp.Some? ==> hp.value < |part.Current()|)
    modifies part
    ensures var st := LinkState(old(part.Current()), hp, None, None);
      var kinds := HammerPullLinks(st, chord);
      && part.measures == WithCurrent(old(part.measures),
           if kinds != [] && hp.Some? then AddMarkers(st.entries, hp.value, Ends(kinds, Start)) else st.entries)
      && stops == Ends(kinds, Stop)
      && hp' == (if kinds != [] then None else hp)
  {
    hp', stops := hp, [];
    if hp.Some? && part.Current()[hp.value].chord.Sounded? && chord.Sounded? {
      var kinds := HammerPullKinds(part.Current()[hp.value].chord, chord);
      part.AddX(hp.value, Ends(kinds, Start));
      stops := Ends(kinds, Stop);
      hp' := None;
    } else {
      assert WithCurrent(part.measures, part.Current()) == part.measures;
    }
  }

  /** The slide link to a chord, on the same terms; the pending kind is
      consumed with the source. */
  method LinkSlide(part: Part, slide: Option<nat>, kind: Option<string>, chord: Chord)
    returns (slide': Option<nat>, kind': Option<string>, stops: seq<Marker>)
    requires part.measures != [] && (slide.Some? ==> slide.value < |part.Current()|)
    modifies part
    ensures var st := LinkState(old(part.Current()), None, slide, kind);
      var kinds := SlideLinks(st, chord);
      && part.measures == WithCurrent(old(part.measures),
           if kinds != [] && slide.Some? then AddMarkers(st.entries, slide.value, Ends(kinds, Start)) else st.entries)
      && stops == Ends(kinds, Stop)
      && (slide', kind') == (if kinds != [] then (None, None) else (slide, kind))
  {
    slide', kind', stops := slide, kind, [];
    if slide.Some? && part.Current()[slide.value].chord.Sounded? && chord.Sounded? {
      var kinds := SlideKinds(kind);
      part.AddX(slide.value, Ends(kinds, Start));
      stops := Ends(kinds, Stop);
      slide', kind' := None, None;
    } else {
      assert WithCurrent(part.measures, part.Current()) == part.measures;
    }
  }

  /** Both links to a chord: the pending sources get the start ends, the
      stop ends are returned for the chord, and the sources linked are
      consumed. */
  method LinkPending(part: Part, hp: Option<nat>, slide: Option<nat>, kind: Option<string>, chord: Chord)
    returns (hp': Option<nat>, slide': Option<nat>, kind': Option<string>, hpStops: seq<Marker>, slideStops: seq<Marker>)
    requires part.measures != [] && WellFormed(StateOf(part.measures, hp, slide, kind))
    modifies part
    ensures var st := StateOf(old(part.measures), hp, slide, kind);
      var hpKinds, slideKinds := HammerPullLinks(st, chord), SlideLinks(st, chord);
      && part.measures == WithCurrent(old(part.measures), StartLinks(st, hpKinds, slideKinds))
      && hpStops == Ends(hpKinds, Stop) && slideStops == Ends(slideKinds, Stop)
      && hp' == (if hpKinds != [] then None else hp)
      && (slide', kind') == (if slideKinds != [] then (None, None) else (slide, kind))
  {
    ghost var st := StateOf(part.measures, hp, slide, kind);
    ghost var start := part.measures;
    hp', hpStops := LinkHammerPull(part, hp, chord);
    ghost var middle := part.measures;
    LinksOfSources(st, chord, middle[|middle| - 1].entries);
    slide', kind', slideStops := LinkSlide(part, slide, kind, chord);
    WithCurrentTwice(start, middle[|middle| - 1].entries, part.Current());
  }

  /** The links to a chord depend only on the pending sources and the
      chords: each kind of link can be looked up on its own, and after the
      hammer-on/pull-off starts were added. */
  lemma LinksOfSources(st: LinkState, chord: Chord, entries: seq<Entry>)
    requires WellFormed(st)
    requires entries == (var kinds := HammerPullLinks(st, chord);
      if kinds != [] && st.hpSource.Some? then AddMarkers(st.entries, st.hpSource.value, Ends(kinds, Start)) else st.entries)
    ensures HammerPullLinks(LinkState(st.entries, st.hpSource, None, None), chord) == HammerPullLinks(st, chord)
    ensures SlideLinks(LinkState(entries, None, st.slideSource, st.slideKind), chord) == SlideLinks(st, chord)
  {
    assert forall i :: 0 <= i < |st.entries| ==> entries[i].chord == st.entries[i].chord;
  }

  /** The markers a chord gets for itself: its tab markers, and staccato
      when it sounds and a note of its beat asks for it. */
  method OwnChordMarkers(chord: Chord, positions: seq<Position>, staccato: bool) returns (markers: seq<Marker>)
    ensures markers == OwnMarkers(chord, positions, staccato)
    ensures TabMarkers(chord, positions) <= markers
    ensures Count(markers, Staccato) == if chord.Sounded? && staccato then 1 else 0
  {
    markers := TabMarkers(chord, positions);
    if chord.Sounded? && staccato {
      markers := markers + [Staccato];
    }
  }

  /** A chord of the beat loop with its markers: its tab markers and
      staccato, then the links from the pending sources when both ends
      sound, the sources consumed by them; the chord is appended. */
  method AppendChord(part: Part, hp: Option<nat>, slide: Option<nat>, kind: Option<string>,
                     chord: Chord, positions: seq<Position>, effects: Effects)
    returns (hp': Option<nat>, slide': Option<nat>, kind': Option<string>)
    requires part.measures != [] && WellFormed(StateOf(part.measures, hp, slide, kind))
    modifies part
    ensures var st := StateOf(old(part.measures), hp, slide, kind);
      var hpKinds, slideKinds := HammerPullLinks(st, chord), SlideLinks(st, chord);
      && part.measures == WithCurrent(old(part.measures),
           StartLinks(st, hpKinds, slideKinds) + [Entry(chord, NewMarkers(st, chord, positions, effects))])
      && hp' == (if hpKinds != [] then None else hp)
      && (slide', kind') == (if slideKinds != [] then (None, None) else (slide, kind))
  {
    ghost var start := part.measures;
    var markers := OwnChordMarkers(chord, positions, effects.staccato);
    var hpStops, slideStops;
    hp', slide', kind', hpStops, slideStops := LinkPending(part, hp, slide, kind, chord);
    ghost var before := part.measures;
    part.AddChord(Entry(chord, markers + hpStops + slideStops));
    WithCurrentTwice(start, before[|before| - 1].entries, part.Current());
  }

  /** One beat that is an object, in the beat loop: its chord is appended
      with its markers and links; it then becomes a pending source when its
      notes ask for it, and a rest clears everything pending. */
  method StepBeat(part: Part, hp: Option<nat>, slide: Option<nat>, kind: Option<string>,
                  chord: Chord, positions: seq<Position>, effects: Effects)
    returns (hp': Option<nat>, slide': Option<nat>, kind': Option<string>)
    requires part.measures != [] && WellFormed(StateOf(part.measures, hp, slide, kind))
    modifies part
    ensures var r := StepChord(StateOf(old(part.measures), hp, slide, kind), chord, positions, effects);
      && part.measures == WithCurrent(old(part.measures), r.entries)
      && (hp', slide', kind') == (r.hpSource, r.slideSource, r.slideKind)
  {
    var here := |part.Current()|;
    hp', slide', kind' := AppendChord(part, hp, slide, kind, chord, positions, effects);
    if chord.Sounded? && effects.hp {
      hp' := Some(here);
    }
    if chord.Sounded? && effects.slide.Some? {
      slide' := Some(here);
      kind' := effects.slide;
    } else if chord.Rest? {
      hp' := None;
      slide' := None;
      kind' := None;
    }
  }

  /** The beat loop of one measure: every beat that is an object is mapped
      to a chord that gets its tab markers and staccato, is linked to the
      pending hammer-on/pull-off and slide sources, becomes a source itself
      or clears them when it is a rest, and is appended to the current
      measure, which starts empty. */
  method LinkBeats(part: Part, beats: seq<Option<Beat>>, tuning: seq<int>)
    requires part.measures != [] && part.Current() == []
    modifies part
    ensures part.measures == WithCurrent(old(part.measures), LinkAll(beats, tuning).entries)
  {
    var pendingHammerPull: Option<nat> := None;
    var pendingSlide: Option<nat> := None;
    var pendingSlideKind: Option<string> := None;
    assert WithCurrent(old(part.measures), []) == old(part.measures);
    for j := 0 to |beats|
      invariant part.measures != []
      invariant part.measures == WithCurrent(old(part.measures), LinkAll(beats[..j], tuning).entries)
      invariant StateOf(part.measures, pendingHammerPull, pendingSlide, pendingSlideKind) == LinkAll(beats[..j], tuning)
    {
      assert beats[..j + 1][..j] == beats[..j];
      if beats[j].Some? {
        var beat := beats[j].value;
        var (chord, positions) := BeatToChord(beat, tuning);
        var effects := BeatEffects(beat.notes);
        pendingHammerPull, pendingSlide, pendingSlideKind :=
          StepBeat(part, pendingHammerPull, pendingSlide, pendingSlideKind, chord, positions, effects);
      }
    }
    assert beats[..|beats|] == beats;
  }

  /** The loop that normalises a keyed measures object. */
  method NormalizeKeyed(pairs: seq<(Option<int>, Option<Measure>)>) returns (normalized: seq<Option<Measure>>)
    ensures normalized == KeyedMeasures(pairs)
  {
    normalized := [];
    for i := 0 to |pairs|
      invariant normalized == KeyedMeasures(pairs[..i])
    {
      assert pairs[..i + 1][..i] == pairs[..i];
      var (key, value) := pairs[i];
      if value.None? {
        continue;
      }
      var measure := value.value;
      if measure.index.None? && key.Some? {
        measure := measure.(index := key);
      }
      normalized := normalized + [Some(measure)];
    }
    assert pairs[..|pairs|] == pairs;
  }

  /** Adds a measure stating time, then fills it with a whole-measure rest
      when the first voice has no beats, otherwise with its linked beats. */
  method AppendMeasure(part: Part, m: Measure, time: Option<(int, int)>, tuning: seq<int>)
    modifies part
    ensures part.measures == old(part.measures) + [MeasureOut(time, MeasureBody(m, tuning))]
  {
    ghost var prior := part.measures;
    part.AddMeasure(time);
    var beats := PrimaryBeats(m);
    if beats == [] {
      part.AddChord(WholeRest);
      assert [] + [WholeRest] == [WholeRest];
    } else {
      LinkBeats(part, beats, tuning);
    }
    assert (prior + [MeasureOut(time, [])])[..|prior|] == prior;
  }

  /** The time signature the measure loop gives measure i: the valid
      signature of the first measure or 4/4, and for a later one its valid
      signature when that differs from the previous one; the previous
      signature moves on to the current one when there is one. */
  method StatedTime(sorted: seq<Measure>, i: nat, first: bool, previous: Option<(int, int)>)
    returns (time: Option<(int, int)>, previous': Option<(int, int)>)
    requires i < |sorted| && (first <==> i == 0) && previous == LastValid(sorted[..i])
    ensures time == TimeAt(sorted, i)
    ensures previous' == LastValid(sorted[..i + 1])
  {
    assert sorted[..i + 1][..i] == sorted[..i];
    var current := ValidSignature(sorted[i]);
    if first {
      time := Some(current.GetOr((4, 4)));
    } else if current.Some? && current != previous {
      time := current;
    } else {
      time := None;
    }
    previous' := if current.Some? then current else previous;
  }

  /** The measure loop: each sorted measure is added to the empty part with
      the time signature it states, then filled with a whole-measure rest
      or with the linked chords of its first voice. */
  method AddMeasures(part: Part, sorted: seq<Measure>, tuning: seq<int>)
    requires part.measures == []
    modifies part
    ensures part.measures == Assemble(sorted, tuning)
  {
    var previous: Option<(int, int)> := None;
    for i := 0 to |sorted|
      invariant part.measures == AssembleFirst(sorted, i, tuning)
      invariant previous == LastValid(sorted[..i])
    {
      previous := AddMeasureAt(part, sorted, i, tuning, previous);
    }
  }

  /** One iteration of the measure loop: measure i is added with the time
      signature it states, and the last valid signature is carried on. */
  method AddMeasureAt(part: Part, sorted: seq<Measure>, i: nat, tuning: seq<int>, previous: Option<(int, int)>)
    returns (previous': Option<(int, int)>)
    requires i < |sorted|
    requires part.measures == AssembleFirst(sorted, i, tuning)
    requires previous == LastValid(sorted[..i])
    modifies part
    ensures part.measures == AssembleFirst(sorted, i + 1, tuning)
    ensures previous' == LastValid(sorted[..i + 1])
  {
    var time;
    time, previous' := StatedTime(sorted, i, i == 0, previous);
    AssembleNext(sorted, i, tuning, time);
    AppendMeasure(part, sorted[i], time, tuning);
  }

  /** `convert_track_json_to_musicxml` up to the written file: the measures
      are normalised (or the validation error raised), the tuning and the
      dead-note mode resolved, and the sorted measures added to the part. */
  method ConvertTrack(track: Track, config: Config) returns (r: Result<Score, ConvertError>)
    ensures r == Convert(track, config)
  {
    var measures: seq<Option<Measure>>;
    match track.measures {
      case MeasureList(items) => measures := items;
      case MeasureMap(pairs) => measures := NormalizeKeyed(pairs);
      case NoMeasures => measures := [];
    }
    if measures == [] {
      return Failure(MissingMeasures);
    }
    assert NormalizeMeasures(track.measures) == Some(measures);
    var tuning := Tuning.ResolveTuning(track, measures, config);
    var deadNoteMode := Metadata.ResolveDeadNoteMode(track.deadNoteMode, track.deadNotesAsUnpitched);
    var part := new Part();
    AddMeasures(part, SortMeasures(measures), tuning);
    r := Success(Score(Metadata.SongName(track), Metadata.OutputName(track), tuning, deadNoteMode, part.measures));
  }
}
