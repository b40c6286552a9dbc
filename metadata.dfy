/** The small pure helpers of the converter: the output file name, the
    first usable text among a list of alias fields, and the dead-note mode. */
module Metadata {
  import opened Wrappers
  import opened Text
  import opened Payload

  /** A character a file name keeps: ASCII letters and digits, '-' and '_'. */
  predicate Kept(c: char) {
    IsAlnum(c) || c == '-' || c == '_'
  }

  /** A character of a file name: itself when kept, '_' otherwise. */
  function SafeChar(c: char): (r: char)
    ensures Kept(r)
    ensures Kept(c) <==> r == c
    ensures !Kept(c) ==> r == '_'
  {
    if Kept(c) then c else '_'
  }

  /** The file-name-safe form of a text: stripped, every other character
      replaced by '_', and "track" when nothing is left. */
  function SafeFilename(value: string): (r: string)
    ensures r != [] && forall i :: 0 <= i < |r| ==> Kept(r[i])
    ensures Strip(value) == [] ==> r == "track"
    ensures Strip(value) != [] ==>
      |r| == |Strip(value)| && forall i :: 0 <= i < |r| ==> r[i] == SafeChar(Strip(value)[i])
  {
    var cleaned := SafeChars(Strip(value));
    if cleaned == [] then "track" else cleaned
  }

  /** Every character of s that a file name does not keep replaced by '_'. */
  function SafeChars(s: string): (r: string)
    ensures |r| == |s| && forall i :: 0 <= i < |s| ==> r[i] == SafeChar(s[i])
  {
    if s == [] then []
    else
      var rest := SafeChars(s[1..]);
      assert forall i :: 1 <= i < |s| ==> ([SafeChar(s[0])] + rest)[i] == SafeChar(s[1..][i - 1]);
      [SafeChar(s[0])] + rest
  }

  lemma KeptNotSpace(c: char)
    requires Kept(c)
    ensures !IsSpace(c)
  {
  }

  /** A text made of kept characters is its own safe form. */
  lemma SafeCharsKept(s: string)
    requires forall i :: 0 <= i < |s| ==> Kept(s[i])
    ensures SafeChars(s) == s
  {
  }

  /** A non-empty text of kept characters is its own safe file name. */
  lemma SafeFilenameKept(s: string)
    requires s != [] && forall i :: 0 <= i < |s| ==> Kept(s[i])
    ensures SafeFilename(s) == s
  {
    KeptNotSpace(s[0]);
    KeptNotSpace(s[|s| - 1]);
    StripTrimmed(s);
    SafeCharsKept(s);
  }

  /** A safe file name is its own safe form. */
  lemma SafeFilenameIdempotent(value: string)
    ensures SafeFilename(SafeFilename(value)) == SafeFilename(value)
  {
    SafeFilenameKept(SafeFilename(value));
  }

  /** The text at key when it is a string that is not blank. */
  predicate Usable(texts: map<string, string>, key: string) {
    key in texts && Strip(texts[key]) != []
  }

  /** The position of the first key, at or after `from`, whose field is a
      string that is not blank. */
  function FirstUsable(texts: map<string, string>, keys: seq<string>, from: nat): (r: Option<nat>)
    requires from <= |keys|
    ensures r.None? <==> forall i :: from <= i < |keys| ==> !Usable(texts, keys[i])
    ensures r.Some? ==>
      && from <= r.value < |keys| && Usable(texts, keys[r.value])
      && forall j :: from <= j < r.value ==> !Usable(texts, keys[j])
    decreases |keys| - from
  {
    if from == |keys| then None
    else if Usable(texts, keys[from]) then Some(from)
    else FirstUsable(texts, keys, from + 1)
  }

  /** The stripped text of the first key whose field is a string that is not
      blank, else the default. */
  function FirstNonEmpty(texts: map<string, string>, keys: seq<string>, default: string): (r: string)
    ensures (forall i :: 0 <= i < |keys| ==> !Usable(texts, keys[i])) ==> r == default
    ensures (exists i :: 0 <= i < |keys| && Usable(texts, keys[i])) ==>
      exists i :: 0 <= i < |keys| && Usable(texts, keys[i]) && r == Strip(texts[keys[i]])
                  && forall j :: 0 <= j < i ==> !Usable(texts, keys[j])
  {
    match FirstUsable(texts, keys, 0)
    case None => default
    case Some(i) => Strip(texts[keys[i]])
  }

  const SongNameKeys: seq<string> := ["songName", "songTitle", "title", "song", "name"]
  const AuthorKeys: seq<string> := ["author", "artist", "composer", "songAuthor", "artistName"]
  const EditorKeys: seq<string> := ["editor", "editedBy", "editorName", "username", "revisionAuthor"]

  /** The song name: the first usable name alias, else "track". */
  function SongName(track: Track): (r: string)
    ensures (forall i :: 0 <= i < |SongNameKeys| ==> !Usable(track.texts, SongNameKeys[i])) ==> r == "track"
  {
    FirstNonEmpty(track.texts, SongNameKeys, "track")
  }

  /** The author: the first usable author alias, else "unknown-author". */
  function AuthorName(track: Track): (r: string)
    ensures (forall i :: 0 <= i < |AuthorKeys| ==> !Usable(track.texts, AuthorKeys[i])) ==> r == "unknown-author"
  {
    FirstNonEmpty(track.texts, AuthorKeys, "unknown-author")
  }

  /** The editor: the first usable editor alias, else the revision id, else "unknown". */
  function EditorName(track: Track): (r: string)
    ensures (forall i :: 0 <= i < |EditorKeys| ==> !Usable(track.texts, EditorKeys[i])) ==>
      r == track.revisionId.GetOr("unknown")
  {
    FirstNonEmpty(track.texts, EditorKeys, track.revisionId.GetOr("unknown"))
  }

  /** The name of a written file: the safe form of song, author and editor
      joined by '-', with the ".musicxml" extension. */
  function OutputFileName(song: string, author: string, editor: string): (r: string)
    ensures |r| > 9 && r[|r| - 9..] == ".musicxml"
    ensures r[..|r| - 9] == SafeFilename(song + "-" + author + "-" + editor)
    ensures forall i :: 0 <= i < |r| - 9 ==> Kept(r[i])
  {
    var base := SafeFilename(song + "-" + author + "-" + editor);
    Split(base, ".musicxml");
    base + ".musicxml"
  }

  /** The name of the file a track is written to. */
  function OutputName(track: Track): string {
    OutputFileName(SongName(track), AuthorName(track), EditorName(track))
  }

  /** A joined text splits back into its parts. */
  lemma Split<T>(a: seq<T>, b: seq<T>)
    ensures (a + b)[..|a|] == a && (a + b)[|a|..] == b
  {
  }

  /** An example: a song without usable name fields is called "track". */
  lemma UnnamedSongIsTrack(track: Track)
    requires forall key | key in track.texts :: Strip(track.texts[key]) == []
    ensures SongName(track) == "track"
  {
  }

  /** Two texts made of kept characters join into one. */
  lemma AllKeptJoin(a: string, b: string)
    requires forall i :: 0 <= i < |a| ==> Kept(a[i])
    requires forall i :: 0 <= i < |b| ==> Kept(b[i])
    ensures forall i :: 0 <= i < |a + b| ==> Kept((a + b)[i])
  {
    assert forall i :: |a| <= i < |a + b| ==> (a + b)[i] == b[i - |a|];
  }

  /** A track without any usable name, author or editor field and without
      a revision id is written as "track-unknown-author-unknown.musicxml". */
  lemma AnonymousOutputName(track: Track)
    requires forall key | key in track.texts :: Strip(track.texts[key]) == []
    requires track.revisionId.None?
    ensures OutputName(track) == "track" + "-" + "unknown-author" + "-" + "unknown" + ".musicxml"
  {
    assert SongName(track) == "track";
    assert AuthorName(track) == "unknown-author";
    assert EditorName(track) == "unknown";
    AllKeptJoin("track", "-");
    AllKeptJoin("track" + "-", "unknown-author");
    AllKeptJoin("track" + "-" + "unknown-author", "-");
    AllKeptJoin("track" + "-" + "unknown-author" + "-", "unknown");
    SafeFilenameKept("track" + "-" + "unknown-author" + "-" + "unknown");
  }

  datatype DeadNoteMode = Standard | Unpitched

  /** The dead-note mode: a `deadNoteMode` text naming a mode (ignoring case
      and surrounding blanks) wins; otherwise a boolean
      `deadNotesAsUnpitched`; otherwise standard. */
  function ResolveDeadNoteMode(mode: Option<string>, asUnpitched: Option<bool>): (r: DeadNoteMode)
    ensures var named := if mode.Some? then Lower(Strip(mode.value)) else "";
      && (named == "unpitched" ==> r == Unpitched)
      && (named == "standard" ==> r == Standard)
      && (r == Unpitched <==> named == "unpitched" || (named != "standard" && asUnpitched == Some(true)))
  {
    var named := if mode.Some? then Lower(Strip(mode.value)) else "";
    if named == "standard" then Standard
    else if named == "unpitched" then Unpitched
    else match asUnpitched
      case Some(b) => if b then Unpitched else Standard
      case None => Standard
  }
}
