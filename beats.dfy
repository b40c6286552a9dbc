/** The beat-to-chord mapper: a beat of the payload becomes a duration in
    quarter notes and a chord of absolute pitches (MIDI numbers), plus the
    string/fret position of each pitch; and the technique flags of a beat. */
module Beats {
  import opened Wrappers
  import opened Payload
  import opened Text
  import Sorting

  /** The unit appended to the part per beat. A rest is its own constructor,
      so that no rest is ever compared pitch-wise with a sounding chord.
      `xHeads[i]` says that pitch i is shown with an "x" notehead. */
  datatype Chord =
    | Rest(dur: real)
    | Sounded(pitches: seq<int>, dur: real, xHeads: seq<bool>)

  /** Where a pitch of a chord is played: 0-based string, fret, muted. */
  datatype Position = Position(str: int, fret: int, dead: bool)

  /** The technique flags of a beat: staccato, hammer-on/pull-off, slide kind. */
  datatype Effects = Effects(staccato: bool, hp: bool, slide: Option<string>)

  /** Length in quarter notes: 4 * numerator / denominator, or one quarter
      when the pair is missing, malformed or has a zero denominator. */
  function QuarterDuration(d: Option<(Option<int>, Option<int>)>): (r: real)
    ensures d.Some? && d.value.0.Some? && d.value.1.Some? && d.value.1.value != 0 ==>
      r * (d.value.1.value as real) == 4.0 * (d.value.0.value as real)
    ensures !(d.Some? && d.value.0.Some? && d.value.1.Some? && d.value.1.value != 0) ==> r == 1.0
  {
    match d
    case Some((Some(num), Some(den))) =>
      if den != 0 then 4.0 * (num as real) / (den as real) else 1.0
    case _ => 1.0
  }

  /** A missing duration means the default pair [1, 4]: one quarter. */
  lemma DefaultDurationIsQuarter()
    ensures QuarterDuration(None) == QuarterDuration(Some((Some(1), Some(4)))) == 1.0
  {
  }

  /** A note that yields a pitch: not a rest, integer string and fret, and
      a string the tuning has. */
  predicate Usable(n: Note, tuning: seq<int>) {
    !n.rest && n.str.Some? && n.fret.Some? && 0 <= n.str.value < |tuning|
  }

  /** (pitch, position) of each usable note, in the order of the beat. */
  function Retained(notes: seq<Option<Note>>, tuning: seq<int>): (r: seq<(int, Position)>)
    ensures forall e | e in r :: 0 <= e.1.str < |tuning| && e.0 == tuning[e.1.str] + e.1.fret
    ensures r == [] <==> forall n | Some(n) in notes :: !Usable(n, tuning)
  {
    if notes == [] then []
    else
      var rest := Retained(notes[1..], tuning);
      assert forall n | Some(n) in notes :: Some(n) == notes[0] || Some(n) in notes[1..];
      if notes[0].Some? && Usable(notes[0].value, tuning) then
        var n := notes[0].value;
        [(tuning[n.str.value] + n.fret.value, Position(n.str.value, n.fret.value, n.dead))] + rest
      else rest
  }

  /** What one note contributes: its pitch and position when it is usable,
      nothing otherwise. */
  lemma RetainedOne(n: Option<Note>, tuning: seq<int>)
    ensures Retained([n], tuning) ==
      if n.Some? && Usable(n.value, tuning)
      then [(tuning[n.value.str.value] + n.value.fret.value, Position(n.value.str.value, n.value.fret.value, n.value.dead))]
      else []
  {
    assert [n][1..] == [];
  }

  /** A note in front of others contributes before them. */
  lemma RetainedCons(x: Option<Note>, rest: seq<Option<Note>>, tuning: seq<int>)
    ensures Retained([x] + rest, tuning) == Retained([x], tuning) + Retained(rest, tuning)
  {
    assert ([x] + rest)[0] == x && ([x] + rest)[1..] == rest;
    assert [x][1..] == [];
  }

  /** Retaining keeps the order of the beat: it distributes over
      concatenation, so with RetainedOne it keeps every usable note, in
      order, with its own position. */
  lemma {:induction false} RetainedAppend(a: seq<Option<Note>>, b: seq<Option<Note>>, tuning: seq<int>)
    ensures Retained(a + b, tuning) == Retained(a, tuning) + Retained(b, tuning)
  {
    if a == [] {
      assert a + b == b;
    } else {
      var x := [a[0]];
      assert a == x + a[1..] && a + b == x + (a[1..] + b);
      RetainedAppend(a[1..], b, tuning);
      RetainedCons(a[0], a[1..], tuning);
      RetainedCons(a[0], a[1..] + b, tuning);
      ConcatAssoc(Retained(x, tuning), Retained(a[1..], tuning), Retained(b, tuning));
    }
  }

  lemma ConcatAssoc<T>(a: seq<T>, b: seq<T>, c: seq<T>)
    ensures a + (b + c) == (a + b) + c
  {
  }

  /** The score library's chord of the single pitch 0 is a rest. */
  predicate LoneZero(entries: seq<(int, Position)>) {
    |entries| == 1 && entries[0].0 == 0
  }

  /** Pairs up pitches with their positions. */
  function Zip(pitches: seq<int>, positions: seq<Position>): (r: seq<(int, Position)>)
    requires |pitches| == |positions|
    ensures |r| == |pitches| && forall i :: 0 <= i < |r| ==> r[i] == (pitches[i], positions[i])
  {
    seq(|pitches|, i requires 0 <= i < |pitches| => (pitches[i], positions[i]))
  }

  function Deads(s: seq<(int, Position)>): (r: seq<bool>)
    ensures |r| == |s| && forall i :: 0 <= i < |s| ==> r[i] == s[i].1.dead
  {
    seq(|s|, i requires 0 <= i < |s| => s[i].1.dead)
  }

  lemma ZipKeysItems(s: seq<(int, Position)>)
    ensures Zip(Sorting.Keys(s), Sorting.Items(s)) == s
  {
  }

  /** A reordering of notes on the tuning keeps them on the tuning. */
  lemma StaysOnTuning(sorted: seq<(int, Position)>, entries: seq<(int, Position)>, tuning: seq<int>)
    requires multiset(sorted) == multiset(entries)
    requires forall e | e in entries :: 0 <= e.1.str < |tuning| && e.0 == tuning[e.1.str] + e.1.fret
    ensures forall i | 0 <= i < |sorted| ::
      0 <= sorted[i].1.str < |tuning| && sorted[i].0 == tuning[sorted[i].1.str] + sorted[i].1.fret
  {
    forall i | 0 <= i < |sorted|
      ensures 0 <= sorted[i].1.str < |tuning| && sorted[i].0 == tuning[sorted[i].1.str] + sorted[i].1.fret
    {
      assert sorted[i] in multiset(entries);
    }
  }

  /** The chord of a beat's retained notes: the notes stably sorted by
      pitch; the single pitch 0 is a rest (sorting one note leaves it be). */
  function Arrange(entries: seq<(int, Position)>, dur: real, tuning: seq<int>): (r: (Chord, seq<Position>))
    requires entries != []
    requires forall e | e in entries :: 0 <= e.1.str < |tuning| && e.0 == tuning[e.1.str] + e.1.fret
    ensures r.0.dur == dur
    ensures r.0.Rest? <==> LoneZero(entries)
    ensures r.0.Rest? ==> r.1 == [entries[0].1]
    ensures r.0.Sounded? ==>
      && |r.0.pitches| == |r.1| == |r.0.xHeads| > 0
      && (forall i, j :: 0 <= i < j < |r.1| ==> r.0.pitches[i] <= r.0.pitches[j])
      && (forall i :: 0 <= i < |r.1| ==>
            && 0 <= r.1[i].str < |tuning|
            && r.0.pitches[i] == tuning[r.1[i].str] + r.1[i].fret
            && r.0.xHeads[i] == r.1[i].dead)
      && multiset(Zip(r.0.pitches, r.1)) == multiset(entries)
      && (forall k :: Sorting.WithKey(Zip(r.0.pitches, r.1), k) == Sorting.WithKey(entries, k))
  {
    if LoneZero(entries) then (Rest(dur), [entries[0].1])
    else
      var sorted := Sorting.StableSort(entries);
      ZipKeysItems(sorted);
      StaysOnTuning(sorted, entries, tuning);
      (Sounded(Sorting.Keys(sorted), dur, Deads(sorted)), Sorting.Items(sorted))
  }

  /** A beat as a chord and the positions of its pitches. The beat is a rest
      exactly when it is flagged rest, none of its notes is usable, or its
      only usable note has pitch 0 (the score library's chord of pitch 0 is
      a rest); the positions are then empty, or that note's position.
      Otherwise the pitches ascend, each equals its open string plus its
      fret, exactly the muted ones get an "x" notehead, and the (pitch,
      position) pairs are the usable notes stably sorted by pitch: a
      permutation of them, notes of equal pitch in beat order. */
  function BeatToChord(b: Beat, tuning: seq<int>): (r: (Chord, seq<Position>))
    ensures r.0.dur == QuarterDuration(b.duration)
    ensures r.0.Rest? <==> b.rest || Retained(b.notes, tuning) == [] || LoneZero(Retained(b.notes, tuning))
    ensures r.0.Rest? && (b.rest || Retained(b.notes, tuning) == []) ==> r.1 == []
    ensures r.0.Rest? && !b.rest && LoneZero(Retained(b.notes, tuning)) ==> r.1 == [Retained(b.notes, tuning)[0].1]
    ensures r.0.Sounded? ==>
      && |r.0.pitches| == |r.1| == |r.0.xHeads| > 0
      && (forall i, j :: 0 <= i < j < |r.1| ==> r.0.pitches[i] <= r.0.pitches[j])
      && (forall i :: 0 <= i < |r.1| ==>
            && 0 <= r.1[i].str < |tuning|
            && r.0.pitches[i] == tuning[r.1[i].str] + r.1[i].fret
            && r.0.xHeads[i] == r.1[i].dead)
      && multiset(Zip(r.0.pitches, r.1)) == multiset(Retained(b.notes, tuning))
      && (forall k :: Sorting.WithKey(Zip(r.0.pitches, r.1), k) == Sorting.WithKey(Retained(b.notes, tuning), k))
  {
    var dur := QuarterDuration(b.duration);
    if b.rest || b.notes == [] then (Rest(dur), [])
    else
      var entries := Retained(b.notes, tuning);
      if entries == [] then (Rest(dur), []) else Arrange(entries, dur, tuning)
  }

  predicate Sounding(n: Option<Note>) {
    n.Some? && !n.value.rest
  }

  /** A sounding note with a slide kind that is not blank. */
  predicate HasSlide(n: Option<Note>) {
    Sounding(n) && n.value.slide.Some? && Strip(n.value.slide.value) != []
  }

  /** Some sounding note of the beat is flagged staccato. */
  function AnyStaccato(notes: seq<Option<Note>>): (r: bool)
    ensures r <==> exists i :: 0 <= i < |notes| && Sounding(notes[i]) && notes[i].value.staccato
  {
    if notes == [] then false
    else
      assert forall i :: 1 <= i < |notes| ==> notes[i] == notes[1..][i - 1];
      (Sounding(notes[0]) && notes[0].value.staccato) || AnyStaccato(notes[1..])
  }

  /** Some sounding note of the beat is flagged hammer-on/pull-off. */
  function AnyHammerPull(notes: seq<Option<Note>>): (r: bool)
    ensures r <==> exists i :: 0 <= i < |notes| && Sounding(notes[i]) && notes[i].value.hp
  {
    if notes == [] then false
    else
      assert forall i :: 1 <= i < |notes| ==> notes[i] == notes[1..][i - 1];
      (Sounding(notes[0]) && notes[0].value.hp) || AnyHammerPull(notes[1..])
  }

  /** The slide kind of the first note with a non-blank one, stripped and
      lower-cased; None when no sounding note has one. */
  function FirstSlide(notes: seq<Option<Note>>): (r: Option<string>)
    ensures r.None? <==> forall i :: 0 <= i < |notes| ==> !HasSlide(notes[i])
    ensures r.Some? ==> exists i :: (0 <= i < |notes| && HasSlide(notes[i])
      && (forall j :: 0 <= j < i ==> !HasSlide(notes[j]))
      && r.value == Lower(Strip(notes[i].value.slide.value)))
  {
    if notes == [] then None
    else if HasSlide(notes[0]) then Some(Lower(Strip(notes[0].value.slide.value)))
    else
      var rest := FirstSlide(notes[1..]);
      assert forall i :: 1 <= i < |notes| ==> notes[i] == notes[1..][i - 1];
      rest
  }

  /** The technique flags of a beat, read from its sounding notes. */
  function BeatEffects(notes: seq<Option<Note>>): (r: Effects)
    ensures r.staccato <==> exists i :: 0 <= i < |notes| && Sounding(notes[i]) && notes[i].value.staccato
    ensures r.hp <==> exists i :: 0 <= i < |notes| && Sounding(notes[i]) && notes[i].value.hp
    ensures r.slide.None? <==> forall i :: 0 <= i < |notes| ==> !HasSlide(notes[i])
  {
    Effects(AnyStaccato(notes), AnyHammerPull(notes), FirstSlide(notes))
  }

  /** The smallest of a non-empty list of pitches. */
  function MinOf(s: seq<int>): (r: int)
    requires s != []
    ensures r in s && forall x | x in s :: r <= x
  {
    if |s| == 1 then s[0]
    else
      var m := MinOf(s[1..]);
      assert forall x | x in s :: x == s[0] || x in s[1..];
      if s[0] < m then s[0] else m
  }

  /** The lowest pitch of a chord; None for a rest or a chord without pitches. */
  function LowestPitch(c: Chord): (r: Option<int>)
    ensures r.None? <==> c.Rest? || c.pitches == []
    ensures r.Some? ==> r.value in c.pitches && forall p | p in c.pitches :: r.value <= p
  {
    if c.Sounded? && c.pitches != [] then Some(MinOf(c.pitches)) else None
  }
}
