/** The tablature annotator and the articulation linker: the markers each
    chord of a measure carries, and the per-measure state machine that links
    a chord to the next one with hammer-on/pull-off and slide markers. */
module Linker {
  import opened Wrappers
  import opened Payload
  import opened Beats

  datatype Side = Start | Stop

  datatype LinkKind = Slur | HammerOn | PullOff | Glissando | SlideLine

  /** A notation attached to a chord: a 1-based string number, a fret
      number, a staccato dot, or one end of a link to a neighbouring chord. */
  datatype Marker =
    | StringNumber(n: int)
    | FretNumber(n: int)
    | Staccato
    | Link(kind: LinkKind, side: Side)

  /** A chord appended to the measure, with the markers it has received. */
  datatype Entry = Entry(chord: Chord, markers: seq<Marker>)

  /** The chords of the measure so far, the pending hammer-on/pull-off
      source, the pending slide source and the pending slide kind; a source
      is the index of a chord already in `entries`. */
  datatype LinkState = LinkState(
    entries: seq<Entry>,
    hpSource: Option<nat>,
    slideSource: Option<nat>,
    slideKind: Option<string>)

  /** How often m occurs in ms. */
  function Count(ms: seq<Marker>, m: Marker): nat {
    multiset(ms)[m]
  }

  /** The string and fret markers of a chord: from its first position, the
      one of its lowest pitch; fret 0 for a muted note; none for a rest or a
      chord without positions. */
  function TabMarkers(c: Chord, positions: seq<Position>): seq<Marker> {
    if c.Rest? || positions == [] then []
    else
      var p := positions[0];
      [StringNumber(p.str + 1), FretNumber(if p.dead then 0 else p.fret)]
  }

  /** For every beat that sounds, the tab markers come from the position
      of the chord's lowest pitch: its 1-based string and its fret, or fret
      0 when that note is muted; a rest gets no tab markers. */
  lemma TabMarkersNameLowestNote(b: Beat, tuning: seq<int>)
    ensures var (c, positions) := BeatToChord(b, tuning);
      && (c.Rest? ==> TabMarkers(c, positions) == [])
      && (c.Sounded? ==>
            var p := positions[0];
            && TabMarkers(c, positions) == [StringNumber(p.str + 1), FretNumber(if p.dead then 0 else p.fret)]
            && 0 <= p.str < |tuning| && tuning[p.str] + p.fret == LowestPitch(c).value
            && p.dead == c.xHeads[0])
  {
    var r := BeatToChord(b, tuning);
    if r.0.Sounded? {
      FirstIsLowest(r.0, r.1, tuning);
    }
  }

  /** In a chord whose pitches are in order, the first position is the one
      of the lowest pitch. */
  lemma FirstIsLowest(c: Chord, positions: seq<Position>, tuning: seq<int>)
    requires c.Sounded? && |c.pitches| == |positions| > 0
    requires forall i, j :: 0 <= i < j < |positions| ==> c.pitches[i] <= c.pitches[j]
    requires 0 <= positions[0].str < |tuning| && c.pitches[0] == tuning[positions[0].str] + positions[0].fret
    ensures tuning[positions[0].str] + positions[0].fret == LowestPitch(c).value
  {
    assert c.pitches[0] in c.pitches;
    forall x | x in c.pitches
      ensures c.pitches[0] <= x
    {
      var j :| 0 <= j < |c.pitches| && c.pitches[j] == x;
      if j > 0 {
        assert c.pitches[0] <= c.pitches[j];
      }
    }
  }

  /** The markers of one end of each link in `kinds`. */
  function Ends(kinds: seq<LinkKind>, side: Side): (r: seq<Marker>)
    ensures |r| == |kinds| && forall i :: 0 <= i < |kinds| ==> r[i] == Link(kinds[i], side)
  {
    seq(|kinds|, i requires 0 <= i < |kinds| => Link(kinds[i], side))
  }

  /** The links of a hammer-on/pull-off: always a slur; then, when both
      chords have a lowest pitch, a hammer-on if the pitch does not fall and
      a pull-off if it does. */
  function HammerPullKinds(prev: Chord, cur: Chord): seq<LinkKind> {
    var lp, lc := LowestPitch(prev), LowestPitch(cur);
    [Slur] + if lp.None? || lc.None? then []
             else if lc.value >= lp.value then [HammerOn] else [PullOff]
  }

  /** The links of a slide: a glissando and a slide line, and a slur when the
      slide kind is "legato". */
  function SlideKinds(kind: Option<string>): seq<LinkKind> {
    [Glissando, SlideLine] + if kind == Some("legato") then [Slur] else []
  }

  /** Appends ms to the markers of chord i (add_x on a chord already in the part). */
  function AddMarkers(es: seq<Entry>, i: nat, ms: seq<Marker>): (r: seq<Entry>)
    requires i < |es|
    ensures |r| == |es| && r[i].chord == es[i].chord && r[i].markers == es[i].markers + ms
    ensures forall j :: 0 <= j < |es| && j != i ==> r[j] == es[j]
  {
    es[i := es[i].(markers := es[i].markers + ms)]
  }

  predicate WellFormed(st: LinkState) {
    && (st.hpSource.Some? ==> st.hpSource.value < |st.entries|)
    && (st.slideSource.Some? ==> st.slideSource.value < |st.entries|)
  }

  /** The state at the start of every measure: nothing pending. */
  const Initial := LinkState([], None, None, None)

  /** The markers a chord gets for itself: its tab markers and, when it
      sounds and a note of its beat is staccato, a staccato marker. */
  function OwnMarkers(chord: Chord, positions: seq<Position>, staccato: bool): (r: seq<Marker>)
    ensures forall k, side :: Count(r, Link(k, side)) == 0
    ensures chord.Rest? ==> r == []
    ensures TabMarkers(chord, positions) <= r
    ensures Count(r, Staccato) == if chord.Sounded? && staccato then 1 else 0
    ensures |r| == |TabMarkers(chord, positions)| + Count(r, Staccato)
  {
    TabMarkers(chord, positions) + (if chord.Sounded? && staccato then [Staccato] else [])
  }

  /** The links from the pending hammer-on/pull-off source to chord: none
      unless a source is pending and both it and chord sound. */
  function HammerPullLinks(st: LinkState, chord: Chord): seq<LinkKind>
    requires WellFormed(st)
  {
    if st.hpSource.Some? && st.entries[st.hpSource.value].chord.Sounded? && chord.Sounded?
    then HammerPullKinds(st.entries[st.hpSource.value].chord, chord)
    else []
  }

  /** The links from the pending slide source to chord, on the same terms. */
  function SlideLinks(st: LinkState, chord: Chord): seq<LinkKind>
    requires WellFormed(st)
  {
    if st.slideSource.Some? && st.entries[st.slideSource.value].chord.Sounded? && chord.Sounded?
    then SlideKinds(st.slideKind)
    else []
  }

  /** The chords of the measure after the pending sources got the start
      markers of their links. */
  function StartLinks(st: LinkState, hpKinds: seq<LinkKind>, slideKinds: seq<LinkKind>): (r: seq<Entry>)
    requires WellFormed(st)
    ensures |r| == |st.entries|
  {
    var entries1 := if hpKinds != [] && st.hpSource.Some?
      then AddMarkers(st.entries, st.hpSource.value, Ends(hpKinds, Start)) else st.entries;
    if slideKinds != [] && st.slideSource.Some?
    then AddMarkers(entries1, st.slideSource.value, Ends(slideKinds, Start)) else entries1
  }

  /** The markers a chord is appended with: its own, then the stop ends of
      the hammer-on/pull-off links and of the slide links made to it. */
  function NewMarkers(st: LinkState, chord: Chord, positions: seq<Position>, effects: Effects): seq<Marker>
    requires WellFormed(st)
  {
    OwnMarkers(chord, positions, effects.staccato)
      + Ends(HammerPullLinks(st, chord), Stop) + Ends(SlideLinks(st, chord), Stop)
  }

  /** One chord of the measure loop, with the positions and the flags of its
      beat: the pending sources are linked to it when both ends sound and
      are then consumed; it becomes the new source when its notes ask for
      it; a rest clears everything pending; it is appended. */
  function StepChord(st: LinkState, chord: Chord, positions: seq<Position>, effects: Effects): (r: LinkState)
    requires WellFormed(st)
    ensures WellFormed(r)
    ensures |r.entries| == |st.entries| + 1 && r.entries[|st.entries|].chord == chord
  {
    var hpKinds := HammerPullLinks(st, chord);
    var slideKinds := SlideLinks(st, chord);
    var entries := StartLinks(st, hpKinds, slideKinds) + [Entry(chord, NewMarkers(st, chord, positions, effects))];
    var here := |st.entries|;
    if chord.Rest? then LinkState(entries, None, None, None)
    else LinkState(
      entries,
      if effects.hp then Some(here) else if hpKinds != [] then None else st.hpSource,
      if effects.slide.Some? then Some(here) else if slideKinds != [] then None else st.slideSource,
      if effects.slide.Some? then effects.slide else if slideKinds != [] then None else st.slideKind)
  }

  /** A chord step leaves the earlier chords with the start ends of the
      links made to the new chord, and appends the chord with its markers. */
  lemma StepChordEntries(st: LinkState, chord: Chord, positions: seq<Position>, effects: Effects)
    requires WellFormed(st)
    ensures StepChord(st, chord, positions, effects).entries
      == StartLinks(st, HammerPullLinks(st, chord), SlideLinks(st, chord))
        + [Entry(chord, NewMarkers(st, chord, positions, effects))]
  {
  }

  /** One beat of the measure loop: a beat that is not an object is skipped
      and changes nothing; any other beat is mapped to its chord and stepped. */
  function LinkStep(st: LinkState, beat: Option<Beat>, tuning: seq<int>): (r: LinkState)
    requires WellFormed(st)
    ensures WellFormed(r)
    ensures beat.None? ==> r == st
  {
    match beat
    case None => st
    case Some(b) =>
      var (chord, positions) := BeatToChord(b, tuning);
      StepChord(st, chord, positions, BeatEffects(b.notes))
  }

  /** Pending sources are the last chord, which sounds; a slide kind is
      pending exactly when a slide source is. */
  predicate Linkable(st: LinkState) {
    && WellFormed(st)
    && (st.hpSource.Some? ==>
          st.hpSource.value == |st.entries| - 1 && st.entries[st.hpSource.value].chord.Sounded?)
    && (st.slideSource.Some? ==>
          st.slideSource.value == |st.entries| - 1 && st.entries[st.slideSource.value].chord.Sounded?)
    && (st.slideKind.Some? <==> st.slideSource.Some?)
  }

  /** Rests carry no markers at all. */
  predicate RestsBare(es: seq<Entry>) {
    forall i :: 0 <= i < |es| && es[i].chord.Rest? ==> es[i].markers == []
  }

  /** Every chord that sounds has a pitch. */
  predicate ChordsHavePitches(es: seq<Entry>) {
    forall i :: 0 <= i < |es| && es[i].chord.Sounded? ==> es[i].chord.pitches != []
  }

  /** Each link starting on a chord stops on the next chord, as often; the
      first chord stops no link and the last starts none. */
  predicate LinksPaired(es: seq<Entry>) {
    && (forall i, k :: 0 <= i < |es| - 1 ==>
          Count(es[i].markers, Link(k, Start)) == Count(es[i + 1].markers, Link(k, Stop)))
    && (forall k :: |es| > 0 ==>
          Count(es[0].markers, Link(k, Stop)) == 0 && Count(es[|es| - 1].markers, Link(k, Start)) == 0)
  }

  predicate Invariant(st: LinkState) {
    Linkable(st) && RestsBare(st.entries) && ChordsHavePitches(st.entries) && LinksPaired(st.entries)
  }

  lemma CountEnds(kinds: seq<LinkKind>, side: Side, k: LinkKind, side': Side)
    ensures Count(Ends(kinds, side), Link(k, side')) == if side == side' then multiset(kinds)[k] else 0
  {
    if side == side' {
      CountOwnEnds(kinds, side, k);
    } else {
      assert Link(k, side') !in Ends(kinds, side);
    }
  }

  /** Counting in three joined sequences. */
  lemma CountJoin<T>(a: seq<T>, b: seq<T>, c: seq<T>, x: T)
    ensures multiset(a + b + c)[x] == multiset(a)[x] + multiset(b)[x] + multiset(c)[x]
  {
  }

  /** Counting in a non-empty sequence: the first element, then the rest. */
  lemma CountCons<T>(s: seq<T>, x: T)
    requires s != []
    ensures multiset(s)[x] == (if s[0] == x then 1 else 0) + multiset(s[1..])[x]
  {
    assert s == [s[0]] + s[1..];
  }

  lemma {:induction false} CountOwnEnds(kinds: seq<LinkKind>, side: Side, k: LinkKind)
    ensures Count(Ends(kinds, side), Link(k, side)) == multiset(kinds)[k]
  {
    if kinds != [] {
      var ends := Ends(kinds, side);
      CountOwnEnds(kinds[1..], side, k);
      CountCons(kinds, k);
      CountCons(ends, Link(k, side));
      assert ends[1..] == Ends(kinds[1..], side);
    }
  }

  /** With the sources on the last chord, starting the links changes only
      that chord, by appending the start markers. */
  lemma StartLinksOnLast(st: LinkState, hpKinds: seq<LinkKind>, slideKinds: seq<LinkKind>)
    requires Linkable(st)
    requires hpKinds != [] ==> st.hpSource.Some?
    requires slideKinds != [] ==> st.slideSource.Some?
    ensures var r := StartLinks(st, hpKinds, slideKinds);
      && (forall i :: 0 <= i < |st.entries| - 1 ==> r[i] == st.entries[i])
      && (|st.entries| > 0 ==>
            var last := st.entries[|st.entries| - 1];
            r[|st.entries| - 1] == last.(markers := last.markers + Ends(hpKinds, Start) + Ends(slideKinds, Start)))
      && (|st.entries| == 0 ==> hpKinds == [] && slideKinds == [])
  {
    if |st.entries| > 0 {
      var last := st.entries[|st.entries| - 1];
      if hpKinds == [] { assert last.markers + Ends(hpKinds, Start) == last.markers; }
      if slideKinds == [] {
        assert last.markers + Ends(hpKinds, Start) + Ends(slideKinds, Start) == last.markers + Ends(hpKinds, Start);
      }
    }
  }

  /** A step appends the chord with its new markers. */
  lemma StepAppends(st: LinkState, chord: Chord, positions: seq<Position>, effects: Effects)
    requires WellFormed(st)
    ensures var r := StepChord(st, chord, positions, effects);
      |r.entries| == |st.entries| + 1
      && r.entries[|st.entries|] == Entry(chord, NewMarkers(st, chord, positions, effects))
  {
  }

  /** With the sources on the last chord, a step leaves every chord before
      the last one as it was. */
  lemma StepKeepsEarlier(st: LinkState, chord: Chord, positions: seq<Position>, effects: Effects)
    requires Linkable(st)
    ensures var r := StepChord(st, chord, positions, effects);
      forall i :: 0 <= i < |st.entries| - 1 ==> r.entries[i] == st.entries[i]
  {
    StartLinksOnLast(st, HammerPullLinks(st, chord), SlideLinks(st, chord));
  }

  /** The link ends the new chord carries: only stops, one per link made to it. */
  lemma NewChordEnds(st: LinkState, chord: Chord, positions: seq<Position>, effects: Effects, k: LinkKind, side: Side)
    requires WellFormed(st)
    ensures Count(NewMarkers(st, chord, positions, effects), Link(k, side))
      == if side == Stop then multiset(HammerPullLinks(st, chord))[k] + multiset(SlideLinks(st, chord))[k] else 0
  {
    var hpKinds, slideKinds := HammerPullLinks(st, chord), SlideLinks(st, chord);
    var own, hpEnds, slideEnds := OwnMarkers(chord, positions, effects.staccato), Ends(hpKinds, Stop), Ends(slideKinds, Stop);
    CountEnds(hpKinds, Stop, k, side);
    CountEnds(slideKinds, Stop, k, side);
    var m := Link(k, side);
    assert Count(own, m) == 0;
    CountJoin(own, hpEnds, slideEnds, m);
  }

  /** The link ends the last chord gains in a step: the start of every link
      made to the new chord. */
  lemma LastChordEnds(st: LinkState, chord: Chord, positions: seq<Position>, effects: Effects, k: LinkKind, side: Side)
    requires Linkable(st) && |st.entries| > 0
    ensures var r := StepChord(st, chord, positions, effects);
      var n := |st.entries|;
      && r.entries[n - 1].chord == st.entries[n - 1].chord
      && Count(r.entries[n - 1].markers, Link(k, side))
           == Count(st.entries[n - 1].markers, Link(k, side))
              + if side == Start then multiset(HammerPullLinks(st, chord))[k] + multiset(SlideLinks(st, chord))[k] else 0
  {
    var hpKinds, slideKinds := HammerPullLinks(st, chord), SlideLinks(st, chord);
    var n := |st.entries|;
    StartLinksOnLast(st, hpKinds, slideKinds);
    CountEnds(hpKinds, Start, k, side);
    CountEnds(slideKinds, Start, k, side);
    assert StepChord(st, chord, positions, effects).entries[n - 1] == StartLinks(st, hpKinds, slideKinds)[n - 1];
  }

  /** Appending a chord that stops the links `links`, after the start ends
      of the same links were added to the last chord, keeps every link
      paired. */
  predicate AppendsLinks(e: seq<Entry>, e': seq<Entry>, links: multiset<LinkKind>) {
    && |e'| == |e| + 1
    && (forall i :: 0 <= i < |e| - 1 ==> e'[i] == e[i])
    && (forall k, side :: Count(e'[|e|].markers, Link(k, side)) == if side == Stop then links[k] else 0)
    && (|e| > 0 ==>
      forall k, side :: Count(e'[|e| - 1].markers, Link(k, side))
        == Count(e[|e| - 1].markers, Link(k, side)) + if side == Start then links[k] else 0)
    && (|e| == 0 ==> links == multiset{})
  }

  lemma PairedAfterAppend(e: seq<Entry>, e': seq<Entry>, links: multiset<LinkKind>)
    requires LinksPaired(e) && AppendsLinks(e, e', links)
    ensures LinksPaired(e')
  {
    var n := |e|;
    forall i, k | 0 <= i < |e'| - 1
      ensures Count(e'[i].markers, Link(k, Start)) == Count(e'[i + 1].markers, Link(k, Stop))
    {
      if i + 1 < n - 1 {
        assert e'[i] == e[i] && e'[i + 1] == e[i + 1];
      } else if i + 1 == n - 1 {
        assert e'[i] == e[i];
      }
    }
    forall k | |e'| > 0
      ensures Count(e'[0].markers, Link(k, Stop)) == 0 && Count(e'[|e'| - 1].markers, Link(k, Start)) == 0
    {
      if n > 1 { assert e'[0] == e[0]; }
    }
  }

  /** The link ends of the new chord, for every kind and side. */
  lemma NewChordAllEnds(st: LinkState, chord: Chord, positions: seq<Position>, effects: Effects,
                        e': seq<Entry>, links: multiset<LinkKind>)
    requires WellFormed(st)
    requires e' == StepChord(st, chord, positions, effects).entries
    requires links == multiset(HammerPullLinks(st, chord)) + multiset(SlideLinks(st, chord))
    ensures |e'| == |st.entries| + 1
    ensures forall k, side :: Count(e'[|st.entries|].markers, Link(k, side)) == if side == Stop then links[k] else 0
  {
    StepAppends(st, chord, positions, effects);
    forall k, side {
      NewChordEnds(st, chord, positions, effects, k, side);
    }
  }

  /** The link ends the last chord gains, for every kind and side. */
  lemma LastChordAllEnds(st: LinkState, chord: Chord, positions: seq<Position>, effects: Effects,
                         e': seq<Entry>, links: multiset<LinkKind>)
    requires Linkable(st) && |st.entries| > 0
    requires e' == StepChord(st, chord, positions, effects).entries
    requires links == multiset(HammerPullLinks(st, chord)) + multiset(SlideLinks(st, chord))
    ensures var n := |st.entries|;
      forall k, side :: Count(e'[n - 1].markers, Link(k, side))
        == Count(st.entries[n - 1].markers, Link(k, side)) + if side == Start then links[k] else 0
  {
    forall k, side {
      LastChordEnds(st, chord, positions, effects, k, side);
    }
  }

  /** A step appends one chord that stops the links made to it, and adds
      their start ends to the chord before it. */
  lemma StepAppendsLinks(st: LinkState, chord: Chord, positions: seq<Position>, effects: Effects)
    requires Linkable(st)
    ensures AppendsLinks(st.entries, StepChord(st, chord, positions, effects).entries,
                         multiset(HammerPullLinks(st, chord)) + multiset(SlideLinks(st, chord)))
  {
    var e' := StepChord(st, chord, positions, effects).entries;
    var links := multiset(HammerPullLinks(st, chord)) + multiset(SlideLinks(st, chord));
    StepKeepsEarlier(st, chord, positions, effects);
    NewChordAllEnds(st, chord, positions, effects, e', links);
    if |st.entries| > 0 {
      LastChordAllEnds(st, chord, positions, effects, e', links);
    } else {
      assert HammerPullLinks(st, chord) == [] && SlideLinks(st, chord) == [];
    }
  }

  /** A step keeps every link paired: the links made to the new chord start
      on the chord just before it. */
  lemma StepLinksPaired(st: LinkState, chord: Chord, positions: seq<Position>, effects: Effects)
    requires Linkable(st) && LinksPaired(st.entries)
    ensures LinksPaired(StepChord(st, chord, positions, effects).entries)
  {
    StepAppendsLinks(st, chord, positions, effects);
    PairedAfterAppend(st.entries, StepChord(st, chord, positions, effects).entries,
                      multiset(HammerPullLinks(st, chord)) + multiset(SlideLinks(st, chord)));
  }

  /** A rest is linked to nothing and gets no markers. */
  lemma RestGetsNothing(st: LinkState, chord: Chord, positions: seq<Position>, effects: Effects)
    requires WellFormed(st) && chord.Rest?
    ensures HammerPullLinks(st, chord) == [] && SlideLinks(st, chord) == []
    ensures NewMarkers(st, chord, positions, effects) == []
  {
  }

  /** With the sources on the last chord, a step keeps the last chord, and
      leaves it as it was when it is a rest. */
  lemma StepKeepsLast(st: LinkState, chord: Chord, positions: seq<Position>, effects: Effects)
    requires Linkable(st) && |st.entries| > 0
    ensures var e' := StepChord(st, chord, positions, effects).entries;
      var n := |st.entries|;
      && e'[n - 1].chord == st.entries[n - 1].chord
      && (st.entries[n - 1].chord.Rest? ==> e'[n - 1] == st.entries[n - 1])
  {
    var n := |st.entries|;
    var hpKinds, slideKinds := HammerPullLinks(st, chord), SlideLinks(st, chord);
    StartLinksOnLast(st, hpKinds, slideKinds);
    assert StepChord(st, chord, positions, effects).entries[n - 1] == StartLinks(st, hpKinds, slideKinds)[n - 1];
    if st.entries[n - 1].chord.Rest? {
      assert hpKinds == [] && slideKinds == [];
    }
  }

  /** A step keeps rests bare and sounding chords pitched. */
  lemma StepRestsBare(st: LinkState, chord: Chord, positions: seq<Position>, effects: Effects)
    requires Linkable(st) && RestsBare(st.entries) && ChordsHavePitches(st.entries)
    requires chord.Sounded? ==> chord.pitches != []
    ensures var e' := StepChord(st, chord, positions, effects).entries;
      RestsBare(e') && ChordsHavePitches(e')
  {
    var e' := StepChord(st, chord, positions, effects).entries;
    StepAppends(st, chord, positions, effects);
    StepKeepsEarlier(st, chord, positions, effects);
    if chord.Rest? {
      RestGetsNothing(st, chord, positions, effects);
    }
    if |st.entries| > 0 {
      StepKeepsLast(st, chord, positions, effects);
    }
    AppendKeepsBare(st.entries, e');
  }

  /** Appending a bare rest or a pitched chord after the entries, while the
      last one keeps its chord and gains markers only when it sounds, keeps
      rests bare and chords pitched. */
  lemma AppendKeepsBare(e: seq<Entry>, e': seq<Entry>)
    requires RestsBare(e) && ChordsHavePitches(e)
    requires |e'| == |e| + 1
    requires forall i :: 0 <= i < |e| - 1 ==> e'[i] == e[i]
    requires |e| > 0 ==>
      && e'[|e| - 1].chord == e[|e| - 1].chord
      && (e[|e| - 1].chord.Rest? ==> e'[|e| - 1] == e[|e| - 1])
    requires e'[|e|].chord.Rest? ==> e'[|e|].markers == []
    requires e'[|e|].chord.Sounded? ==> e'[|e|].chord.pitches != []
    ensures RestsBare(e') && ChordsHavePitches(e')
  {
    forall i | 0 <= i < |e| - 1 ensures e'[i] == e[i] { }
  }

  /** A step keeps the invariant, and after a sounding chord what is pending
      is exactly what that chord's notes ask for: nothing older survives. */
  lemma StepChordInvariant(st: LinkState, chord: Chord, positions: seq<Position>, effects: Effects)
    requires Invariant(st)
    requires chord.Sounded? ==> chord.pitches != []
    ensures var r := StepChord(st, chord, positions, effects);
      && Invariant(r)
      && (chord.Sounded? ==>
            && (r.hpSource.Some? <==> effects.hp)
            && (r.slideSource.Some? <==> effects.slide.Some?)
            && r.slideKind == effects.slide)
  {
    StepAppends(st, chord, positions, effects);
    StepLinksPaired(st, chord, positions, effects);
    StepRestsBare(st, chord, positions, effects);
  }

  lemma HammerPullCounts(prev: Chord, cur: Chord)
    requires prev.Sounded? && prev.pitches != [] && cur.Sounded? && cur.pitches != []
    ensures var up := LowestPitch(cur).value >= LowestPitch(prev).value;
      var ms := multiset(HammerPullKinds(prev, cur));
      && ms[Slur] == 1 && ms[HammerOn] == (if up then 1 else 0) && ms[PullOff] == (if up then 0 else 1)
  {
  }

  lemma SlideCounts(kind: Option<string>)
    ensures var ms := multiset(SlideKinds(kind));
      && ms[Glissando] == 1 && ms[SlideLine] == 1 && ms[Slur] == (if kind == Some("legato") then 1 else 0)
      && ms[HammerOn] == 0 && ms[PullOff] == 0
  {
  }

  /** The stop ends a sounding chord gets from a pending
      hammer-on/pull-off source: one hammer-on or one pull-off, by the
      direction of the lowest pitches. */
  lemma HammerPullTurns(st: LinkState, chord: Chord, positions: seq<Position>, effects: Effects)
    requires Linkable(st) && ChordsHavePitches(st.entries) && st.hpSource.Some?
    requires chord.Sounded? && chord.pitches != []
    ensures var up := LowestPitch(chord).value >= LowestPitch(st.entries[|st.entries| - 1].chord).value;
      var m := NewMarkers(st, chord, positions, effects);
      && Count(m, Link(HammerOn, Stop)) == (if up then 1 else 0)
      && Count(m, Link(PullOff, Stop)) == (if up then 0 else 1)
  {
    var prev := st.entries[|st.entries| - 1].chord;
    assert HammerPullLinks(st, chord) == HammerPullKinds(prev, chord);
    HammerPullCounts(prev, chord);
    if st.slideSource.Some? {
      SlideCounts(st.slideKind);
    }
    NewChordEnds(st, chord, positions, effects, HammerOn, Stop);
    NewChordEnds(st, chord, positions, effects, PullOff, Stop);
  }

  /** The slur stops a sounding chord gets from a pending
      hammer-on/pull-off source: one, and a second for a pending legato
      slide. */
  lemma HammerPullSlurs(st: LinkState, chord: Chord, positions: seq<Position>, effects: Effects)
    requires Linkable(st) && ChordsHavePitches(st.entries) && st.hpSource.Some?
    requires chord.Sounded? && chord.pitches != []
    ensures var legato := st.slideSource.Some? && st.slideKind == Some("legato");
      Count(NewMarkers(st, chord, positions, effects), Link(Slur, Stop)) == (if legato then 2 else 1)
  {
    var prev := st.entries[|st.entries| - 1].chord;
    assert HammerPullLinks(st, chord) == HammerPullKinds(prev, chord);
    HammerPullCounts(prev, chord);
    if st.slideSource.Some? {
      SlideCounts(st.slideKind);
    }
    NewChordEnds(st, chord, positions, effects, Slur, Stop);
  }

  /** The hammer-on/pull-off rule: when a hammer-on/pull-off source is
      pending and a sounding chord follows, that chord stops exactly one
      slur for it (a second only for a pending legato slide) and exactly
      one of a hammer-on, when its lowest pitch is not below the source's,
      or a pull-off, when it is. */
  lemma HammerPullRule(st: LinkState, chord: Chord, positions: seq<Position>, effects: Effects)
    requires Linkable(st) && ChordsHavePitches(st.entries) && st.hpSource.Some?
    requires chord.Sounded? && chord.pitches != []
    ensures var up := LowestPitch(chord).value >= LowestPitch(st.entries[|st.entries| - 1].chord).value;
      var legato := st.slideSource.Some? && st.slideKind == Some("legato");
      var m := NewMarkers(st, chord, positions, effects);
      && Count(m, Link(HammerOn, Stop)) == (if up then 1 else 0)
      && Count(m, Link(PullOff, Stop)) == (if up then 0 else 1)
      && Count(m, Link(Slur, Stop)) == (if legato then 2 else 1)
  {
    HammerPullTurns(st, chord, positions, effects);
    HammerPullSlurs(st, chord, positions, effects);
  }

  /** The slide stops a sounding chord gets when only a slide source is
      pending: one glissando, one slide line, and no hammer-on or pull-off. */
  lemma SlideLines(st: LinkState, chord: Chord, positions: seq<Position>, effects: Effects)
    requires Linkable(st) && st.slideSource.Some? && st.hpSource.None?
    requires chord.Sounded?
    ensures var m := NewMarkers(st, chord, positions, effects);
      && Count(m, Link(Glissando, Stop)) == 1
      && Count(m, Link(SlideLine, Stop)) == 1
      && Count(m, Link(HammerOn, Stop)) + Count(m, Link(PullOff, Stop)) == 0
  {
    assert HammerPullLinks(st, chord) == [];
    assert SlideLinks(st, chord) == SlideKinds(st.slideKind);
    SlideCounts(st.slideKind);
    NewChordEnds(st, chord, positions, effects, Glissando, Stop);
    NewChordEnds(st, chord, positions, effects, SlideLine, Stop);
    NewChordEnds(st, chord, positions, effects, HammerOn, Stop);
    NewChordEnds(st, chord, positions, effects, PullOff, Stop);
  }

  /** The slide rule: when only a slide source is pending and a sounding
      chord follows, that chord stops exactly one glissando and one slide
      line, and a slur exactly when the slide kind is "legato". */
  lemma SlideRule(st: LinkState, chord: Chord, positions: seq<Position>, effects: Effects)
    requires Linkable(st) && st.slideSource.Some? && st.hpSource.None?
    requires chord.Sounded?
    ensures var m := NewMarkers(st, chord, positions, effects);
      && Count(m, Link(Glissando, Stop)) == 1
      && Count(m, Link(SlideLine, Stop)) == 1
      && Count(m, Link(Slur, Stop)) == (if st.slideKind == Some("legato") then 1 else 0)
      && Count(m, Link(HammerOn, Stop)) + Count(m, Link(PullOff, Stop)) == 0
  {
    SlideLines(st, chord, positions, effects);
    assert HammerPullLinks(st, chord) == [];
    assert SlideLinks(st, chord) == SlideKinds(st.slideKind);
    SlideCounts(st.slideKind);
    NewChordEnds(st, chord, positions, effects, Slur, Stop);
  }

  /** A rest clears everything pending, is appended without markers and
      touches no earlier chord. */
  lemma RestClears(st: LinkState, b: Beat, tuning: seq<int>)
    requires WellFormed(st)
    requires BeatToChord(b, tuning).0.Rest?
    ensures var r := LinkStep(st, Some(b), tuning);
      && r.hpSource.None? && r.slideSource.None? && r.slideKind.None?
      && r.entries == st.entries + [Entry(BeatToChord(b, tuning).0, [])]
  {
    var (chord, positions) := BeatToChord(b, tuning);
    assert HammerPullLinks(st, chord) == [] && SlideLinks(st, chord) == [];
    assert OwnMarkers(chord, positions, BeatEffects(b.notes).staccato) + Ends([], Stop) + Ends([], Stop) == [];
  }

  /** A beat keeps the invariant. */
  lemma LinkStepInvariant(st: LinkState, beat: Option<Beat>, tuning: seq<int>)
    requires Invariant(st)
    ensures Invariant(LinkStep(st, beat, tuning))
  {
    if beat.Some? {
      var (chord, positions) := BeatToChord(beat.value, tuning);
      StepChordInvariant(st, chord, positions, BeatEffects(beat.value.notes));
    }
  }

  /** The beats of one measure, linked from a fresh state: what the beat loop
      has appended and left pending after the last beat. */
  function LinkAll(beats: seq<Option<Beat>>, tuning: seq<int>): (r: LinkState)
    ensures WellFormed(r)
  {
    if beats == [] then Initial
    else LinkStep(LinkAll(beats[..|beats| - 1], tuning), beats[|beats| - 1], tuning)
  }

  /** The beat loop keeps the invariant from the fresh state of a measure on. */
  lemma {:induction false} LinkAllInvariant(beats: seq<Option<Beat>>, tuning: seq<int>)
    ensures Invariant(LinkAll(beats, tuning))
  {
    if beats != [] {
      var init := beats[..|beats| - 1];
      LinkAllInvariant(init, tuning);
      LinkStepInvariant(LinkAll(init, tuning), beats[|beats| - 1], tuning);
    }
  }

  /** A step changes no chord already appended and appends its own. */
  lemma StepKeepsChords(st: LinkState, chord: Chord, positions: seq<Position>, effects: Effects)
    requires Linkable(st)
    ensures var e' := StepChord(st, chord, positions, effects).entries;
      && |e'| == |st.entries| + 1 && e'[|st.entries|].chord == chord
      && forall i :: 0 <= i < |st.entries| ==> e'[i].chord == st.entries[i].chord
  {
    StepAppends(st, chord, positions, effects);
    StepKeepsEarlier(st, chord, positions, effects);
    if |st.entries| > 0 {
      StepKeepsLast(st, chord, positions, effects);
    }
  }

  /** Every beat that is an object appends exactly one chord, the one it maps
      to, and a beat that is not an object appends nothing. */
  lemma {:induction false} LinkAllChords(beats: seq<Option<Beat>>, tuning: seq<int>)
    ensures var es := LinkAll(beats, tuning).entries;
      |es| == |Chords(beats, tuning)| && forall i :: 0 <= i < |es| ==> es[i].chord == Chords(beats, tuning)[i]
  {
    if beats != [] {
      var init := beats[..|beats| - 1];
      LinkAllChords(init, tuning);
      LinkAllInvariant(init, tuning);
      LinkStepKeepsChords(LinkAll(init, tuning), beats[|beats| - 1], tuning);
    }
  }

  /** A beat appends its chord, when it is an object, and keeps the chords
      before it. */
  lemma LinkStepKeepsChords(st: LinkState, beat: Option<Beat>, tuning: seq<int>)
    requires Linkable(st)
    ensures var es := LinkStep(st, beat, tuning).entries;
      var added := match beat case None => [] case Some(b) => [BeatToChord(b, tuning).0];
      && |es| == |st.entries| + |added|
      && (forall i :: 0 <= i < |st.entries| ==> es[i].chord == st.entries[i].chord)
      && (forall i :: |st.entries| <= i < |es| ==> es[i].chord == added[i - |st.entries|])
  {
    match beat
    case None =>
    case Some(b) =>
      var cp := BeatToChord(b, tuning);
      assert LinkStep(st, beat, tuning) == StepChord(st, cp.0, cp.1, BeatEffects(b.notes));
      StepKeepsChords(st, cp.0, cp.1, BeatEffects(b.notes));
  }

  function Chords(beats: seq<Option<Beat>>, tuning: seq<int>): (r: seq<Chord>)
    ensures |r| <= |beats|
  {
    if beats == [] then []
    else
      Chords(beats[..|beats| - 1], tuning)
        + match beats[|beats| - 1] case None => [] case Some(b) => [BeatToChord(b, tuning).0]
  }

  /** No link spans a rest or the barline: a chord that starts a link sounds
      and is followed, within the measure, by a chord that sounds and stops it. */
  lemma LinksJoinSoundingNeighbours(es: seq<Entry>, i: int, k: LinkKind)
    requires RestsBare(es) && LinksPaired(es)
    requires 0 <= i < |es| && Count(es[i].markers, Link(k, Start)) > 0
    ensures i + 1 < |es|
    ensures es[i].chord.Sounded? && es[i + 1].chord.Sounded?
    ensures Count(es[i + 1].markers, Link(k, Stop)) == Count(es[i].markers, Link(k, Start))
  {
  }
}
