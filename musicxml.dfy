/** The post-processing of the written MusicXML: reading a pitch as a MIDI
    number, inferring a string and fret for it, giving every note explicit
    tablature string/fret children, and turning dead notes into unpitched
    notes, the unpitched element inserted before the first child whose tag
    is one of a fixed set of later note children (instrument, voice, type,
    ...), or at the end. */
module MusicXml {
  import opened Wrappers
  import opened Text
  import Metadata

  /** The element names the post-processing reads or writes; every other
      name is Other. Other never holds the name of a tag listed here (an
      element named "pitch" is Pitch, not Other("pitch")): see WellTagged. */
  datatype Tag =
    | Rest | Notations | Technical | String | Fret | Pitch | Notehead
    | Step | Alter | Octave | Unpitched | DisplayStep | DisplayOctave
    | Instrument | Voice | Type | Dot | TimeModification | Stem | Staff | Beam | Lyric
    | Other(name: string)

  /** The MusicXML names of the tags listed by name. */
  const HandledNames: set<string> := {
    "rest", "notations", "technical", "string", "fret", "pitch", "notehead",
    "step", "alter", "octave", "unpitched", "display-step", "display-octave",
    "instrument", "voice", "type", "dot", "time-modification", "stem", "staff", "beam", "lyric"}

  /** A tag in its one representation: Other only for an unlisted name. */
  predicate WellTagged(t: Tag) {
    t.Other? ==> t.name !in HandledNames
  }

  /** An XML element: its tag, its text (None when it has none) and its children. */
  datatype Element = Element(tag: Tag, text: Option<string>, children: seq<Element>)

  function Leaf(tag: Tag, text: string): Element {
    Element(tag, Some(text), [])
  }

  /** The position of the first element at or after `from` with the tag. */
  function FindFrom(es: seq<Element>, tag: Tag, from: nat): (r: Option<nat>)
    requires from <= |es|
    ensures r.None? <==> forall i :: from <= i < |es| ==> es[i].tag != tag
    ensures r.Some? ==>
      && from <= r.value < |es| && es[r.value].tag == tag
      && forall j :: from <= j < r.value ==> es[j].tag != tag
    decreases |es| - from
  {
    if from == |es| then None
    else if es[from].tag == tag then Some(from)
    else FindFrom(es, tag, from + 1)
  }

  /** Element.find: the position of the first child with the tag. */
  function Find(es: seq<Element>, tag: Tag): (r: Option<nat>)
    ensures r.None? <==> forall i :: 0 <= i < |es| ==> es[i].tag != tag
    ensures r.Some? ==> r.value < |es| && es[r.value].tag == tag && forall j :: 0 <= j < r.value ==> es[j].tag != tag
  {
    FindFrom(es, tag, 0)
  }

  /** The first child with the tag is the one at k when it has the tag and
      none before it does. */
  lemma FindIs(es: seq<Element>, tag: Tag, k: nat)
    requires k < |es| && es[k].tag == tag
    requires forall j :: 0 <= j < k ==> es[j].tag != tag
    ensures Find(es, tag) == Some(k)
  {
  }

  /** Element.findtext: the text of the first child with the tag, "" when it
      has none; None when there is no such child. */
  function FindText(es: seq<Element>, tag: Tag): Option<string> {
    match Find(es, tag)
    case None => None
    case Some(i) => Some(es[i].text.GetOr(""))
  }

  /** `findtext(tag) or default`: the default also replaces an empty text. */
  function TextOr(es: seq<Element>, tag: Tag, default: string): string {
    var t := FindText(es, tag);
    if t.None? || t.value == "" then default else t.value
  }

  /** The semitone of a natural step above C. */
  function Semitone(step: string): Option<int> {
    if step == "C" then Some(0)
    else if step == "D" then Some(2)
    else if step == "E" then Some(4)
    else if step == "F" then Some(5)
    else if step == "G" then Some(7)
    else if step == "A" then Some(9)
    else if step == "B" then Some(11)
    else None
  }

  /** The MIDI number of a `pitch` element: (octave + 1) * 12 + semitone +
      alter, the alter defaulting to 0; None when the step is not one of
      C D E F G A B (after stripping and upper-casing) or the octave or the
      alter is not an integer. */
  function PitchToMidi(pitch: Element): (r: Option<int>)
    ensures r.Some? <==>
      && Semitone(Upper(Strip(TextOr(pitch.children, Step, "")))).Some?
      && ParseInt(Strip(TextOr(pitch.children, Octave, ""))).Some?
      && ParseInt(Strip(TextOr(pitch.children, Alter, "0"))).Some?
  {
    var semitone := Semitone(Upper(Strip(TextOr(pitch.children, Step, ""))));
    var octave := ParseInt(Strip(TextOr(pitch.children, Octave, "")));
    var alter := ParseInt(Strip(TextOr(pitch.children, Alter, "0")));
    if semitone.None? || octave.None? || alter.None? then None
    else Some((octave.value + 1) * 12 + semitone.value + alter.value)
  }

  /** The step letter and alter that spell a pitch class with sharps. */
  function SharpSpelling(pc: int): (r: (char, int))
    requires 0 <= pc < 12
    ensures Semitone([r.0]).Some? && Semitone([r.0]).value + r.1 == pc
    ensures 'A' <= r.0 <= 'Z'
  {
    if pc == 0 then ('C', 0) else if pc == 1 then ('C', 1)
    else if pc == 2 then ('D', 0) else if pc == 3 then ('D', 1)
    else if pc == 4 then ('E', 0) else if pc == 5 then ('F', 0)
    else if pc == 6 then ('F', 1) else if pc == 7 then ('G', 0)
    else if pc == 8 then ('G', 1) else if pc == 9 then ('A', 0)
    else if pc == 10 then ('A', 1) else ('B', 0)
  }

  /** A `pitch` element spelling a MIDI number with sharps. */
  function SpellPitch(midi: int): Element {
    var (step, alter) := SharpSpelling(midi % 12);
    Element(Pitch, None, [Leaf(Step, [step]), Leaf(Alter, IntToString(alter)), Leaf(Octave, IntToString(midi / 12 - 1))])
  }

  /** The texts a pitch element with step, alter and octave children, in
      that order, gives its reader. */
  lemma PitchTexts(step: string, alter: string, octave: string)
    requires step != "" && alter != "" && octave != ""
    ensures var cs := [Leaf(Step, step), Leaf(Alter, alter), Leaf(Octave, octave)];
      && TextOr(cs, Step, "") == step
      && TextOr(cs, Alter, "0") == alter
      && TextOr(cs, Octave, "") == octave
  {
    var cs := [Leaf(Step, step), Leaf(Alter, alter), Leaf(Octave, octave)];
    assert FindFrom(cs, Alter, 1) == Some(1);
    assert FindFrom(cs, Octave, 2) == Some(2);
    assert FindFrom(cs, Octave, 1) == Some(2);
  }

  /** A pitch element whose step, octave and alter read as values that
      make midi is that MIDI number. */
  lemma PitchToMidiReads(pitch: Element, midi: int, semitone: int, octave: int, alter: int)
    requires Semitone(Upper(Strip(TextOr(pitch.children, Step, "")))) == Some(semitone)
    requires ParseInt(Strip(TextOr(pitch.children, Octave, ""))) == Some(octave)
    requires ParseInt(Strip(TextOr(pitch.children, Alter, "0"))) == Some(alter)
    requires (octave + 1) * 12 + semitone + alter == midi
    ensures PitchToMidi(pitch) == Some(midi)
  {
  }

  /** The step of a spelled pitch reads as the semitone of its spelling. */
  lemma SpellPitchStep(midi: int)
    ensures var cs := SpellPitch(midi).children;
      Semitone(Upper(Strip(TextOr(cs, Step, "")))) == Semitone([SharpSpelling(midi % 12).0])
  {
    var (step, alter) := SharpSpelling(midi % 12);
    PitchTexts([step], IntToString(alter), IntToString(midi / 12 - 1));
    StripTrimmed([step]);
    assert Upper([step]) == [step];
  }

  /** The octave of a spelled pitch reads as the MIDI octave less one. */
  lemma SpellPitchOctave(midi: int)
    ensures var cs := SpellPitch(midi).children;
      ParseInt(Strip(TextOr(cs, Octave, ""))) == Some(midi / 12 - 1)
  {
    var (step, alter) := SharpSpelling(midi % 12);
    var octave := midi / 12 - 1;
    PitchTexts([step], IntToString(alter), IntToString(octave));
    IntToStringStripped(octave);
    ParseIntToString(octave);
  }

  /** The alter of a spelled pitch reads as the alter of its spelling. */
  lemma SpellPitchAlter(midi: int)
    ensures var cs := SpellPitch(midi).children;
      ParseInt(Strip(TextOr(cs, Alter, "0"))) == Some(SharpSpelling(midi % 12).1)
  {
    var (step, alter) := SharpSpelling(midi % 12);
    PitchTexts([step], IntToString(alter), IntToString(midi / 12 - 1));
    IntToStringStripped(alter);
    ParseIntToString(alter);
  }

  /** Reading a spelled pitch gives back its MIDI number. */
  lemma PitchToMidiSpellPitch(midi: int)
    ensures PitchToMidi(SpellPitch(midi)) == Some(midi)
  {
    var (step, alter) := SharpSpelling(midi % 12);
    SpellPitchStep(midi);
    SpellPitchOctave(midi);
    SpellPitchAlter(midi);
    var semitone := Semitone([step]).value;
    var octave := midi / 12 - 1;
    assert (octave + 1) * 12 + semitone + alter == midi by {
      assert semitone + alter == midi % 12;
      assert (midi / 12) * 12 + midi % 12 == midi;
    }
    PitchToMidiReads(SpellPitch(midi), midi, semitone, octave, alter);
  }

  /** Middle C, with no alter child, is MIDI 60. */
  lemma MiddleC()
    ensures PitchToMidi(Element(Pitch, None, [Leaf(Step, "C"), Leaf(Octave, "4")])) == Some(60)
  {
    var cs := [Leaf(Step, "C"), Leaf(Octave, "4")];
    assert FindFrom(cs, Octave, 1) == Some(1);
    assert FindFrom(cs, Alter, 2) == None;
    assert FindFrom(cs, Alter, 1) == None;
    assert TextOr(cs, Step, "") == "C";
    assert TextOr(cs, Octave, "") == "4";
    assert TextOr(cs, Alter, "0") == "0";
    assert Strip("C") == "C" by { StripTrimmed("C"); }
    assert Strip("4") == "4" by { StripTrimmed("4"); }
    assert Strip("0") == "0" by { StripTrimmed("0"); }
    assert Upper("C") == "C";
    assert ParseInt("4") == Some(4) by { assert AllDigits("4"); }
    assert ParseInt("0") == Some(0) by { assert AllDigits("0"); }
  }

  /** A string/fret pair (string index, fret) that plays midi. */
  predicate Plays(midi: int, tuning: seq<int>, i: int) {
    0 <= i < |tuning| && midi - tuning[i] >= 0
  }

  /** The candidate among strings `from` and above with the smallest fret,
      the lowest string winning a tie; None when the pitch is below every
      one of their open strings. */
  function InferFrom(midi: int, tuning: seq<int>, from: nat): (r: Option<(nat, int)>)
    requires from <= |tuning|
    ensures r.None? <==> forall i :: from <= i < |tuning| ==> !Plays(midi, tuning, i)
    ensures r.Some? ==>
      && from <= r.value.0 && Plays(midi, tuning, r.value.0) && r.value.1 == midi - tuning[r.value.0]
      && forall i :: from <= i && Plays(midi, tuning, i) ==>
           r.value.1 < midi - tuning[i] || (r.value.1 == midi - tuning[i] && r.value.0 <= i)
    decreases |tuning| - from
  {
    if from == |tuning| then None
    else
      var rest := InferFrom(midi, tuning, from + 1);
      var fret := midi - tuning[from];
      if fret >= 0 && (rest.None? || fret <= rest.value.1) then
        assert Plays(midi, tuning, from);
        Some((from, fret))
      else rest
  }

  /** The string and fret a MIDI number is played on by default. */
  function InferStringFret(midi: int, tuning: seq<int>): (r: Option<(nat, int)>)
    ensures r.None? <==> forall i :: 0 <= i < |tuning| ==> midi < tuning[i]
    ensures r.Some? ==>
      && r.value.0 < |tuning| && r.value.1 >= 0 && tuning[r.value.0] + r.value.1 == midi
      && forall i :: 0 <= i < |tuning| && tuning[i] <= midi ==>
           r.value.1 < midi - tuning[i] || (r.value.1 == midi - tuning[i] && r.value.0 <= i)
  {
    assert forall i :: 0 <= i < |tuning| ==> (Plays(midi, tuning, i) <==> tuning[i] <= midi);
    InferFrom(midi, tuning, 0)
  }

  const Guitar: seq<int> := [64, 59, 55, 50, 45, 40]

  /** An example on a standard six-string guitar: E4 (MIDI 64) is the first
      string open. */
  lemma InferOpenFirstString()
    ensures InferStringFret(64, Guitar) == Some((0, 0))
  {
    var r := InferStringFret(64, Guitar);
    assert Guitar[0] <= 64;
  }

  /** B3 (MIDI 59) is the second string open, not the fourth fret of the
      third: the smallest fret wins. */
  lemma InferOpenSecondString()
    ensures InferStringFret(59, Guitar) == Some((1, 0))
  {
    var r := InferStringFret(59, Guitar);
    assert Guitar[1] <= 59;
    assert r.Some? && r.value.1 == 0 && r.value.0 <= 1;
    assert r.value.0 != 0;
  }

  /** D#2 (MIDI 39) is below every open string and has no position. */
  lemma InferBelowGuitar()
    ensures InferStringFret(39, Guitar) == None
  {
    assert forall i :: 0 <= i < |Guitar| ==> 39 < Guitar[i];
  }

  /** A notehead whose text reads "x" (ignoring case and surrounding blanks). */
  predicate IsDead(children: seq<Element>) {
    Lower(Strip(FindText(children, Notehead).GetOr(""))) == "x"
  }

  /** `find(tag)`, or a new empty child with the tag appended when there is
      none: the children afterwards and the position of that child. */
  function Locate(es: seq<Element>, tag: Tag): (r: (seq<Element>, nat))
    ensures r.1 < |r.0| && r.0[r.1].tag == tag
    ensures Find(es, tag).Some? ==> r == (es, Find(es, tag).value)
    ensures Find(es, tag).None? ==> r == (es + [Element(tag, None, [])], |es|)
    ensures Find(r.0, tag) == Some(r.1)
  {
    match Find(es, tag)
    case Some(i) => (es, i)
    case None =>
      FindIs(es + [Element(tag, None, [])], tag, |es|);
      (es + [Element(tag, None, [])], |es|)
  }

  /** The first child with the tag (appended when missing) given the text. */
  function SetText(es: seq<Element>, tag: Tag, text: string): (r: seq<Element>)
    ensures |r| >= |es|
  {
    var (cs, i) := Locate(es, tag);
    cs[i := cs[i].(text := Some(text))]
  }

  /** SetText leaves the first child with the tag holding the text, appended
      only when missing, and every other child as it was. */
  lemma SetTextFinds(es: seq<Element>, tag: Tag, text: string)
    ensures var r := SetText(es, tag, text);
      && Find(r, tag).Some? && r[Find(r, tag).value].text == Some(text)
      && (Find(es, tag).Some? ==> |r| == |es| && Find(r, tag) == Find(es, tag))
      && (forall i :: 0 <= i < |es| && es[i].tag != tag ==> r[i] == es[i])
      && (forall i :: 0 <= i < |es| ==> r[i].tag == es[i].tag)
  {
    var (cs, i) := Locate(es, tag);
    FindAfterUpdate(cs, i, cs[i].(text := Some(text)));
  }

  /** The 1-based string number and the fret given to a note that lacks one
      of them: inferred from its pitch when there is a tuning, a readable
      pitch and a string that plays it; string 1, fret 0 otherwise. */
  function Inferred(children: seq<Element>, tuning: seq<int>): (r: (int, int))
    ensures r.0 >= 1 && r.1 >= 0
    ensures var p := Find(children, Pitch);
      var midi := if p.Some? then PitchToMidi(children[p.value]) else None;
      var inferred := if midi.Some? && tuning != [] then InferStringFret(midi.value, tuning) else None;
      && (inferred.Some? ==> r == (inferred.value.0 + 1, inferred.value.1))
      && (inferred.None? ==> r == (1, 0))
  {
    match Find(children, Pitch)
    case None => (1, 0)
    case Some(p) =>
      if tuning == [] then (1, 0)
      else match PitchToMidi(children[p])
        case None => (1, 0)
        case Some(midi) =>
          match InferStringFret(midi, tuning)
          case None => (1, 0)
          case Some((s, f)) => (s + 1, f)
  }

  /** When some string can play the note's readable pitch, the inferred
      1-based string plays it at the inferred fret, and no string plays it
      at a smaller fret; when none can, the note gets string 1, fret 0. */
  lemma InferredPlays(children: seq<Element>, tuning: seq<int>)
    requires Find(children, Pitch).Some? && tuning != []
    requires PitchToMidi(children[Find(children, Pitch).value]).Some?
    ensures var midi := PitchToMidi(children[Find(children, Pitch).value]).value;
      var r := Inferred(children, tuning);
      && ((exists i :: 0 <= i < |tuning| && tuning[i] <= midi) ==>
            && 1 <= r.0 <= |tuning| && tuning[r.0 - 1] + r.1 == midi
            && forall i :: 0 <= i < |tuning| && tuning[i] <= midi ==> r.1 <= midi - tuning[i])
      && ((forall i :: 0 <= i < |tuning| ==> midi < tuning[i]) ==> r == (1, 0))
  {
  }

  /** The children of the `technical` child of the `notations` child of a
      note; empty when either is missing. */
  function TechnicalChildren(children: seq<Element>): seq<Element> {
    var (cs, ni) := Locate(children, Notations);
    var (ts, ti) := Locate(cs[ni].children, Technical);
    ts[ti].children
  }

  /** The children of a note after its `notations` child and the `technical`
      child in it are found or appended, the technical child given new
      children. */
  function WithTechnicalChildren(children: seq<Element>, tc: seq<Element>): seq<Element> {
    var (cs, ni) := Locate(children, Notations);
    var (ts, ti) := Locate(cs[ni].children, Technical);
    cs[ni := cs[ni].(children := ts[ti := ts[ti].(children := tc)])]
  }

  /** The technical child of a note, when it has a notations child that has one. */
  function TechnicalOf(children: seq<Element>): Option<Element> {
    match Find(children, Notations)
    case None => None
    case Some(ni) =>
      match Find(children[ni].children, Technical)
      case None => None
      case Some(ti) => Some(children[ni].children[ti])
  }

  /** An existing technical child's children are the ones read; a missing
      one reads as empty. */
  lemma TechnicalChildrenOf(children: seq<Element>)
    ensures TechnicalOf(children).Some? ==> TechnicalChildren(children) == TechnicalOf(children).value.children
    ensures TechnicalOf(children).None? ==> TechnicalChildren(children) == []
  {
  }

  /** After its technical children are replaced, a note has a technical child
      with exactly those children, and every other child is found where it was. */
  lemma TechnicalOfWith(children: seq<Element>, tc: seq<Element>)
    ensures var r := WithTechnicalChildren(children, tc);
      && TechnicalOf(r).Some? && TechnicalOf(r).value.children == tc
      && forall tag :: tag != Notations ==> Find(r, tag) == Find(children, tag)
  {
    var (cs, ni) := Locate(children, Notations);
    var (ts, ti) := Locate(cs[ni].children, Technical);
    FindAfterUpdate(cs, ni, cs[ni].(children := ts[ti := ts[ti].(children := tc)]));
    FindAfterUpdate(ts, ti, ts[ti].(children := tc));
    forall tag | tag != Notations
      ensures Find(cs, tag) == Find(children, tag)
    {
      if Find(children, Notations).None? {
        AppendKeepsFind(children, Element(Notations, None, []), tag);
      }
    }
  }

  /** Appending an element with another tag keeps the first child with a tag. */
  lemma AppendKeepsFind(es: seq<Element>, e: Element, tag: Tag)
    requires e.tag != tag
    ensures Find(es + [e], tag) == Find(es, tag)
  {
    var r, r' := Find(es, tag), Find(es + [e], tag);
    if r.Some? {
      assert (es + [e])[r.value].tag == tag;
    }
    if r'.Some? {
      assert es[r'.value].tag == tag;
    }
  }

  /** A technical element's children with the string number and then the
      fret number written as texts, each child appended when missing. */
  function Filled(tc: seq<Element>, stringNumber: int, fret: int): seq<Element> {
    SetText(SetText(tc, String, IntToString(stringNumber)), Fret, IntToString(fret))
  }

  /** Filled children have a string child and a fret child whose texts read
      back as the numbers written. */
  lemma FilledReadsBack(tc: seq<Element>, stringNumber: int, fret: int)
    ensures var t := Filled(tc, stringNumber, fret);
      && Find(t, String).Some? && t[Find(t, String).value].text.Some?
      && ParseInt(t[Find(t, String).value].text.value) == Some(stringNumber)
      && Find(t, Fret).Some? && t[Find(t, Fret).value].text.Some?
      && ParseInt(t[Find(t, Fret).value].text.value) == Some(fret)
  {
    var stringText, fretText := IntToString(stringNumber), IntToString(fret);
    var mid := SetText(tc, String, stringText);
    SetTextFinds(tc, String, stringText);
    SetTextFinds(mid, Fret, fretText);
    var t := SetText(mid, Fret, fretText);
    assert t[Find(mid, String).value].tag == String;
    ParseIntToString(stringNumber);
    ParseIntToString(fret);
  }

  /** The children of a note after it is given tablature string and fret
      children: a rest is left alone; a `notations` child and a `technical`
      child in it are found or appended; a note with both a `string` and a
      `fret` child is left alone; otherwise the string text is set to the
      inferred string number and the fret text to the inferred fret, or to
      0 for a dead note, appending each child that is missing. */
  function WithStringFret(children: seq<Element>, tuning: seq<int>): seq<Element> {
    if Find(children, Rest).Some? then children
    else
      var tc := TechnicalChildren(children);
      if Find(tc, String).Some? && Find(tc, Fret).Some? then children
      else
        var (s, f) := Inferred(children, tuning);
        WithTechnicalChildren(children, Filled(tc, s, if IsDead(children) then 0 else f))
  }

  /** A note that is not a rest ends up with a technical child that has
      both a string and a fret; one that had both keeps all its children. */
  lemma WithStringFretFills(children: seq<Element>, tuning: seq<int>)
    requires Find(children, Rest).None?
    ensures var r := WithStringFret(children, tuning);
      var t := TechnicalOf(r);
      && t.Some? && Find(t.value.children, String).Some? && Find(t.value.children, Fret).Some?
      && (TechnicalOf(children).Some? && Find(TechnicalOf(children).value.children, String).Some?
          && Find(TechnicalOf(children).value.children, Fret).Some?
          ==> r == children)
  {
    var tc := TechnicalChildren(children);
    TechnicalChildrenOf(children);
    if !(Find(tc, String).Some? && Find(tc, Fret).Some?) {
      var (s, f) := Inferred(children, tuning);
      var fret := if IsDead(children) then 0 else f;
      TechnicalOfWith(children, Filled(tc, s, fret));
      FilledReadsBack(tc, s, fret);
    }
  }

  /** A note that is not a rest and lacks a string or a fret child gets
      texts that read back as the inferred string number and the inferred
      fret, or 0 for a dead note. */
  lemma WithStringFretTexts(children: seq<Element>, tuning: seq<int>)
    requires Find(children, Rest).None?
    requires var tc := TechnicalChildren(children); Find(tc, String).None? || Find(tc, Fret).None?
    ensures var t := TechnicalOf(WithStringFret(children, tuning));
      var (s, f) := Inferred(children, tuning);
      t.Some? &&
      var t := t.value.children;
      && Find(t, String).Some? && t[Find(t, String).value].text.Some?
      && ParseInt(t[Find(t, String).value].text.value) == Some(s)
      && Find(t, Fret).Some? && t[Find(t, Fret).value].text.Some?
      && ParseInt(t[Find(t, Fret).value].text.value) == Some(if IsDead(children) then 0 else f)
  {
    var tc := TechnicalChildren(children);
    var (s, f) := Inferred(children, tuning);
    var fret := if IsDead(children) then 0 else f;
    TechnicalOfWith(children, Filled(tc, s, fret));
    FilledReadsBack(tc, s, fret);
  }

  /** Writing the string and fret texts keeps every other technical child. */
  lemma FilledKeeps(tc: seq<Element>, stringNumber: int, fret: int)
    ensures var t := Filled(tc, stringNumber, fret);
      && |t| >= |tc|
      && forall j :: 0 <= j < |tc| && tc[j].tag != String && tc[j].tag != Fret ==> t[j] == tc[j]
  {
    var mid := SetText(tc, String, IntToString(stringNumber));
    SetTextFinds(tc, String, IntToString(stringNumber));
    SetTextFinds(mid, Fret, IntToString(fret));
  }

  /** Replacing a note's technical children changes only its `notations`
      child, appending one when it is missing. */
  lemma WithTechnicalChildrenKeeps(children: seq<Element>, tc: seq<Element>)
    ensures var r := WithTechnicalChildren(children, tc);
      && |children| <= |r| <= |children| + 1
      && (forall i :: 0 <= i < |children| && children[i].tag != Notations ==> r[i] == children[i])
      && (forall i :: |children| <= i < |r| ==> r[i].tag == Notations)
  {
    var (cs, ni) := Locate(children, Notations);
    assert forall i :: 0 <= i < |children| ==> cs[i] == children[i];
  }

  /** Inside an existing `notations` child, replacing the technical children
      changes only the `technical` child, appending one when it is missing. */
  lemma WithTechnicalChildrenKeepsInside(children: seq<Element>, tc: seq<Element>)
    requires Find(children, Notations).Some?
    ensures var r := WithTechnicalChildren(children, tc);
      var ni := Find(children, Notations).value;
      var ns := children[ni].children;
      && Find(r, Notations) == Some(ni)
      && |r[ni].children| >= |ns|
      && forall j :: 0 <= j < |ns| && ns[j].tag != Technical ==> r[ni].children[j] == ns[j]
  {
    var ni := Find(children, Notations).value;
    var (ts, ti) := Locate(children[ni].children, Technical);
    FindAfterUpdate(children, ni, children[ni].(children := ts[ti := ts[ti].(children := tc)]));
    assert forall j :: 0 <= j < |children[ni].children| ==> ts[j] == children[ni].children[j];
  }

  /** The pass changes only the `notations` child of a note, appending one
      when it is missing: every other child stays where it was, as it was. */
  lemma WithStringFretKeeps(children: seq<Element>, tuning: seq<int>)
    ensures var r := WithStringFret(children, tuning);
      && |children| <= |r| <= |children| + 1
      && (forall i :: 0 <= i < |children| && children[i].tag != Notations ==> r[i] == children[i])
      && (forall i :: |children| <= i < |r| ==> r[i].tag == Notations)
  {
    if Find(children, Rest).None? {
      var tc := TechnicalChildren(children);
      if !(Find(tc, String).Some? && Find(tc, Fret).Some?) {
        var (s, f) := Inferred(children, tuning);
        WithTechnicalChildrenKeeps(children, Filled(tc, s, if IsDead(children) then 0 else f));
      }
    }
  }

  /** Inside the `notations` child only the `technical` child changes, and
      inside the `technical` child only the `string` and `fret` children:
      every other child at either level is kept in place. */
  lemma WithStringFretKeepsInside(children: seq<Element>, tuning: seq<int>)
    requires Find(children, Notations).Some?
    ensures var r := WithStringFret(children, tuning);
      var ni := Find(children, Notations).value;
      var ns := children[ni].children;
      && Find(r, Notations) == Some(ni)
      && |r[ni].children| >= |ns|
      && forall j :: 0 <= j < |ns| && ns[j].tag != Technical ==> r[ni].children[j] == ns[j]
  {
    if Find(children, Rest).None? {
      var tc := TechnicalChildren(children);
      if !(Find(tc, String).Some? && Find(tc, Fret).Some?) {
        var (s, f) := Inferred(children, tuning);
        var filled := Filled(tc, s, if IsDead(children) then 0 else f);
        assert WithStringFret(children, tuning) == WithTechnicalChildren(children, filled);
        WithTechnicalChildrenKeepsInside(children, filled);
      }
    }
  }

  /** An existing `technical` child keeps every child other than `string`
      and `fret` in place. */
  lemma WithStringFretKeepsTechnical(children: seq<Element>, tuning: seq<int>)
    requires TechnicalOf(children).Some?
    ensures var t := TechnicalOf(WithStringFret(children, tuning));
      var tc := TechnicalOf(children).value.children;
      && t.Some? && |t.value.children| >= |tc|
      && forall j :: 0 <= j < |tc| && tc[j].tag != String && tc[j].tag != Fret ==> t.value.children[j] == tc[j]
  {
    var r := WithStringFret(children, tuning);
    var tc := TechnicalChildren(children);
    TechnicalChildrenOf(children);
    if r != children {
      var (s, f) := Inferred(children, tuning);
      var fret := if IsDead(children) then 0 else f;
      TechnicalOfWith(children, Filled(tc, s, fret));
      FilledKeeps(tc, s, fret);
    }
  }

  /** Replacing the element at position i by one with the same tag keeps
      every find where it was. */
  lemma FindAfterUpdate(es: seq<Element>, i: nat, e: Element)
    requires i < |es| && e.tag == es[i].tag
    ensures forall tag :: Find(es[i := e], tag) == Find(es, tag)
  {
    forall tag ensures Find(es[i := e], tag) == Find(es, tag) {
      var r, r' := Find(es, tag), Find(es[i := e], tag);
      if r.Some? {
        assert es[i := e][r.value].tag == tag;
      }
      if r'.Some? {
        assert es[r'.value].tag == tag;
      }
    }
  }

  /** Giving a note string and fret children twice is giving them once. */
  lemma WithStringFretIdempotent(children: seq<Element>, tuning: seq<int>)
    ensures WithStringFret(WithStringFret(children, tuning), tuning) == WithStringFret(children, tuning)
  {
    var r := WithStringFret(children, tuning);
    if Find(children, Rest).None? {
      WithStringFretFills(children, tuning);
      RestKept(children, tuning);
      TechnicalChildrenOf(r);
    }
  }

  /** The pass keeps a note a rest or not a rest. */
  lemma RestKept(children: seq<Element>, tuning: seq<int>)
    ensures Find(WithStringFret(children, tuning), Rest) == Find(children, Rest)
  {
    if Find(children, Rest).None? {
      var tc := TechnicalChildren(children);
      if !(Find(tc, String).Some? && Find(tc, Fret).Some?) {
        var (s, f) := Inferred(children, tuning);
        TechnicalOfWith(children, Filled(tc, s, if IsDead(children) then 0 else f));
      }
    }
  }

  /** The children before which an `unpitched` element must not come. */
  const TrailingTags: set<Tag> :=
    {Instrument, Voice, Type, Dot, TimeModification, Stem, Notehead, Staff, Beam, Notations, Lyric}

  /** Where the `unpitched` element goes: before the first child that must
      follow it, else at the end. */
  function InsertionIndex(es: seq<Element>): (r: nat)
    ensures r <= |es|
    ensures forall j :: 0 <= j < r ==> es[j].tag !in TrailingTags
    ensures r < |es| ==> es[r].tag in TrailingTags
  {
    if es == [] || es[0].tag in TrailingTags then 0 else 1 + InsertionIndex(es[1..])
  }

  /** The unpitched element written for a dead note: display step C, octave 4. */
  const UnpitchedC4 := Element(Unpitched, None, [Leaf(DisplayStep, "C"), Leaf(DisplayOctave, "4")])

  /** The children of a note after dead-note conversion: a note whose
      notehead reads "x" and that has a pitch loses that pitch and gets the
      unpitched element at its insertion index; any other note is left alone. */
  function WithUnpitched(children: seq<Element>): seq<Element> {
    if !IsDead(children) then children
    else match Find(children, Pitch)
      case None => children
      case Some(p) => Unpitch(children, p)
  }

  /** The children without child p, with the unpitched element inserted. */
  function Unpitch(children: seq<Element>, p: nat): (r: seq<Element>)
    requires p < |children|
    ensures |r| == |children|
  {
    var rest := children[..p] + children[p + 1..];
    var k := InsertionIndex(rest);
    rest[..k] + [UnpitchedC4] + rest[k..]
  }

  /** Where each child of the note goes when child p is replaced by the
      unpitched element at index k. */
  lemma UnpitchLayout(children: seq<Element>, p: nat)
    requires p < |children|
    ensures var rest := children[..p] + children[p + 1..];
      var k := InsertionIndex(rest);
      var r := Unpitch(children, p);
      && k < |r| && r[k] == UnpitchedC4
      && (forall j :: 0 <= j < k ==> r[j] == rest[j])
      && (forall j :: k < j < |r| ==> r[j] == rest[j - 1])
      && (forall j :: 0 <= j < p ==> rest[j] == children[j])
      && (forall j :: p <= j < |rest| ==> rest[j] == children[j + 1])
  {
  }

  /** A converted dead note has the unpitched element after every child
      whose tag is not in the trailing set and before the first child whose
      tag is (so after `duration` and `tie`, which that set lacks), and
      otherwise the same children in the same order, less its pitch. */
  lemma WithUnpitchedPlaces(children: seq<Element>)
    requires IsDead(children) && Find(children, Pitch).Some?
    ensures var rest := children[..Find(children, Pitch).value] + children[Find(children, Pitch).value + 1..];
      var k := InsertionIndex(rest);
      var r := WithUnpitched(children);
      && k < |r| && r[k] == UnpitchedC4
      && r[..k] + r[k + 1..] == rest
      && (forall j :: 0 <= j < k ==> r[j].tag !in TrailingTags)
      && (k + 1 < |r| ==> r[k + 1].tag in TrailingTags)
  {
    UnpitchPlaces(children, Find(children, Pitch).value);
  }

  lemma UnpitchPlaces(children: seq<Element>, p: nat)
    requires p < |children|
    ensures var rest := children[..p] + children[p + 1..];
      var k := InsertionIndex(rest);
      var r := Unpitch(children, p);
      && k < |r| && r[k] == UnpitchedC4
      && r[..k] + r[k + 1..] == rest
      && (forall j :: 0 <= j < k ==> r[j].tag !in TrailingTags)
      && (k + 1 < |r| ==> r[k + 1].tag in TrailingTags)
  {
    var rest := children[..p] + children[p + 1..];
    var k := InsertionIndex(rest);
    var r := Unpitch(children, p);
    assert r[..k] == rest[..k];
    assert r[k + 1..] == rest[k..];
    assert rest[..k] + rest[k..] == rest;
  }

  /** Conversion is the identity on a note that is not dead or has no pitch. */
  lemma WithUnpitchedKeeps(children: seq<Element>)
    requires !IsDead(children) || Find(children, Pitch).None?
    ensures WithUnpitched(children) == children
  {
  }

  /** Conversion keeps the notehead text of a dead note. */
  lemma NoteheadSurvives(children: seq<Element>)
    requires IsDead(children) && Find(children, Pitch).Some?
    ensures FindText(WithUnpitched(children), Notehead) == FindText(children, Notehead)
  {
    UnpitchKeepsTrailing(children, Find(children, Pitch).value, Notehead);
  }

  /** Removing child p and inserting the unpitched element keeps the text
      of the first child with any tag that must follow the unpitched
      element: it stays after the insertion index. */
  lemma UnpitchKeepsTrailing(children: seq<Element>, p: nat, tag: Tag)
    requires p < |children| && children[p].tag != tag && tag in TrailingTags
    ensures FindText(Unpitch(children, p), tag) == FindText(children, tag)
  {
    match Find(children, tag)
    case None => UnpitchAddsNoTag(children, p, tag);
    case Some(h) => UnpitchMovesTag(children, p, tag, h);
  }

  /** A tag the note lacks is still missing after the conversion. */
  lemma UnpitchAddsNoTag(children: seq<Element>, p: nat, tag: Tag)
    requires p < |children| && tag != Unpitched && Find(children, tag).None?
    ensures Find(Unpitch(children, p), tag).None?
  {
    var r := Unpitch(children, p);
    var k := InsertionIndex(children[..p] + children[p + 1..]);
    UnpitchLayout(children, p);
    forall j | 0 <= j < |r| ensures r[j].tag != tag {
      if j > k { assert r[j] == children[if j - 1 < p then j - 1 else j]; }
      else if j < k { assert r[j] == children[if j < p then j else j + 1]; }
    }
  }

  /** The first child with a trailing tag moves by the child removed before
      it and the unpitched element inserted before it. */
  lemma UnpitchMovesTag(children: seq<Element>, p: nat, tag: Tag, h: nat)
    requires p < |children| && children[p].tag != tag && tag in TrailingTags
    requires Find(children, tag) == Some(h)
    ensures var h' := if h < p then h else h - 1;
      Find(Unpitch(children, p), tag) == Some(h' + 1) && Unpitch(children, p)[h' + 1] == children[h]
  {
    RemoveMovesTag(children, p, tag, h);
    InsertMovesTag(children[..p] + children[p + 1..], tag, if h < p then h else h - 1);
  }

  /** Removing a child with another tag moves the first child with the tag
      one place down when it came after the removed one. */
  lemma RemoveMovesTag(children: seq<Element>, p: nat, tag: Tag, h: nat)
    requires p < |children| && children[p].tag != tag
    requires Find(children, tag) == Some(h)
    ensures var rest := children[..p] + children[p + 1..];
      var h' := if h < p then h else h - 1;
      Find(rest, tag) == Some(h') && rest[h'] == children[h]
  {
    var rest := children[..p] + children[p + 1..];
    var h' := if h < p then h else h - 1;
    assert rest[h'] == children[h];
    forall j | 0 <= j < h' ensures rest[j].tag != tag {
      assert rest[j] == children[if j < p then j else j + 1];
    }
    FindIs(rest, tag, h');
  }

  /** Inserting the unpitched element moves the first child with a trailing
      tag one place up: it comes at or after the insertion index. */
  lemma InsertMovesTag(rest: seq<Element>, tag: Tag, h: nat)
    requires tag in TrailingTags && Find(rest, tag) == Some(h)
    ensures var k := InsertionIndex(rest);
      var r := rest[..k] + [UnpitchedC4] + rest[k..];
      Find(r, tag) == Some(h + 1) && r[h + 1] == rest[h]
  {
    var k := InsertionIndex(rest);
    assert h >= k;
    InsertBeforeFound(rest, k, UnpitchedC4, tag, h);
  }

  /** Inserting an element with another tag at or before the first child
      with a tag moves that child one place up. */
  lemma InsertBeforeFound(es: seq<Element>, k: nat, e: Element, tag: Tag, h: nat)
    requires k <= h && Find(es, tag) == Some(h) && e.tag != tag
    ensures var r := es[..k] + [e] + es[k..];
      Find(r, tag) == Some(h + 1) && r[h + 1] == es[h]
  {
    var r := es[..k] + [e] + es[k..];
    forall j | 0 <= j < h + 1
      ensures r[j].tag != tag
    {
      if j < k {
        assert r[j] == es[j];
      } else if j > k {
        assert r[j] == es[j - 1];
      }
    }
    FindIs(r, tag, h + 1);
  }

  /** On a note with a single pitch, conversion is idempotent. */
  lemma WithUnpitchedIdempotent(children: seq<Element>)
    requires forall i, j :: 0 <= i < j < |children| && children[i].tag == Pitch ==> children[j].tag != Pitch
    ensures WithUnpitched(WithUnpitched(children)) == WithUnpitched(children)
  {
    if IsDead(children) && Find(children, Pitch).Some? {
      NoteheadSurvives(children);
      UnpitchRemovesPitch(children, Find(children, Pitch).value);
    }
  }

  /** After removing the only pitch, the note has no pitch left. */
  lemma UnpitchRemovesPitch(children: seq<Element>, p: nat)
    requires p < |children| && children[p].tag == Pitch
    requires forall i, j :: 0 <= i < j < |children| && children[i].tag == Pitch ==> children[j].tag != Pitch
    ensures Find(Unpitch(children, p), Pitch).None?
  {
    var rest := children[..p] + children[p + 1..];
    var k := InsertionIndex(rest);
    var r := Unpitch(children, p);
    UnpitchLayout(children, p);
    forall i | 0 <= i < |r| ensures r[i].tag != Pitch {
      if i < k {
        assert r[i] == children[if i < p then i else i + 1];
      } else if i > k {
        assert r[i] == children[if i - 1 < p then i - 1 else i];
      }
    }
  }

  /** A note element of the written tree, edited in place. */
  class NoteElement {
    var children: seq<Element>

    constructor(children: seq<Element>)
      ensures this.children == children
    {
      this.children := children;
    }

    /** Gives the note tablature string and fret children. */
    method EnsureStringFret(tuning: seq<int>)
      modifies this
      ensures children == WithStringFret(old(children), tuning)
    {
      if Find(children, Rest).Some? {
        return;
      }
      var dead := IsDead(children);
      var (withNotations, ni) := Locate(children, Notations);
      var (withTechnical, ti) := Locate(withNotations[ni].children, Technical);
      var technical := withTechnical[ti].children;
      var existingString := Find(technical, String);
      var existingFret := Find(technical, Fret);
      if existingString.Some? && existingFret.Some? {
        return;
      }
      var (stringNumber, fret) := Inferred(children, tuning);
      technical := SetText(technical, String, IntToString(stringNumber));
      technical := SetText(technical, Fret, IntToString(if dead then 0 else fret));
      children := withNotations[ni := withNotations[ni].(children := withTechnical[ti := withTechnical[ti].(children := technical)])];
    }

    /** Replaces the pitch of a dead note by an unpitched element. */
    method ConvertDeadToUnpitched()
      modifies this
      ensures children == WithUnpitched(old(children))
    {
      var head := FindText(children, Notehead);
      if head.None? || Lower(Strip(head.value)) != "x" {
        return;
      }
      var pitch := Find(children, Pitch);
      if pitch.None? {
        return;
      }
      children := children[..pitch.value] + children[pitch.value + 1..];
      var insertionIndex := FindInsertionIndex(children);
      children := children[..insertionIndex] + [UnpitchedC4] + children[insertionIndex..];
    }
  }

  /** The loop that finds where the unpitched element goes. */
  method FindInsertionIndex(es: seq<Element>) returns (insertionIndex: nat)
    ensures insertionIndex == InsertionIndex(es)
  {
    insertionIndex := 0;
    var index := 0;
    while index < |es|
      invariant 0 <= index <= |es| && insertionIndex == index
      invariant InsertionIndex(es) >= index
    {
      if es[index].tag in TrailingTags {
        insertionIndex := index;
        break;
      }
      insertionIndex := index + 1;
      index := index + 1;
    }
  }

  /** Every note of the tree, with no note listed twice. */
  predicate Distinct(notes: seq<NoteElement>) {
    forall i, j :: 0 <= i < j < |notes| ==> notes[i] != notes[j]
  }

  /** `_ensure_string_fret_for_all_notes_musicxml`: every note gets
      tablature string and fret children. */
  method EnsureStringFretForAll(notes: seq<NoteElement>, tuning: seq<int>)
    requires Distinct(notes)
    modifies set n | n in notes
    ensures forall i :: 0 <= i < |notes| ==> notes[i].children == WithStringFret(old(notes[i].children), tuning)
  {
    for i := 0 to |notes|
      invariant forall j :: 0 <= j < i ==> notes[j].children == WithStringFret(old(notes[j].children), tuning)
      invariant forall j :: i <= j < |notes| ==> notes[j].children == old(notes[j].children)
    {
      ghost var prior := seq(|notes|, j requires 0 <= j < |notes| reads notes => notes[j].children);
      notes[i].EnsureStringFret(tuning);
      forall j | 0 <= j < |notes| && j != i
        ensures notes[j].children == prior[j]
      {
        assert notes[j] != notes[i];
      }
    }
  }

  /** Every dead note gets an unpitched element instead of its pitch. */
  method ConvertDeadNotes(notes: seq<NoteElement>)
    requires Distinct(notes)
    modifies set n | n in notes
    ensures forall i :: 0 <= i < |notes| ==> notes[i].children == WithUnpitched(old(notes[i].children))
  {
    for i := 0 to |notes|
      invariant forall j :: 0 <= j < i ==> notes[j].children == WithUnpitched(old(notes[j].children))
      invariant forall j :: i <= j < |notes| ==> notes[j].children == old(notes[j].children)
    {
      ghost var prior := seq(|notes|, j requires 0 <= j < |notes| reads notes => notes[j].children);
      notes[i].ConvertDeadToUnpitched();
      forall j | 0 <= j < |notes| && j != i
        ensures notes[j].children == prior[j]
      {
        assert notes[j] != notes[i];
      }
    }
  }

  /** The post-processing of the written file: every note gets tablature
      string and fret children; then, in unpitched dead-note mode, every
      dead note gets an unpitched element instead of its pitch. */
  method PostProcess(notes: seq<NoteElement>, tuning: seq<int>, mode: Metadata.DeadNoteMode)
    requires Distinct(notes)
    modifies set n | n in notes
    ensures forall i :: 0 <= i < |notes| ==>
      notes[i].children == if mode == Metadata.Unpitched then WithUnpitched(WithStringFret(old(notes[i].children), tuning))
                           else WithStringFret(old(notes[i].children), tuning)
  {
    EnsureStringFretForAll(notes, tuning);
    if mode == Metadata.Unpitched {
      ConvertDeadNotes(notes);
    }
  }
}
