/**
 * The per-file extractor (`MusicScanner._extract_track_info`): from one
 * path and what opening it reports, a track record or nothing.
 *
 * The container parser, the filesystem `stat` call and the MD5 digest are
 * outside the model: the parser's outcome and the file size arrive in a
 * `FileEntry`, and the digest is the parameter `hash`.
 */
module Extractor {
  import opened Optional
  import opened Strings
  import opened Tags

  /** The container classes the extractor tells apart; `OtherKind` is any other class (Ogg, WAVE, ...). */
  datatype Kind = Mp3 | Mp4 | Flac | OtherKind

  /** A length in seconds; the container parsers never report a negative one. */
  type Seconds = x: real | 0.0 <= x

  /** A parsed container: its class, its stream length when it reports one, and its tags, if any. */
  datatype AudioFile = AudioFile(kind: Kind, length: Option<Seconds>, tags: Option<TagList>)

  /** The outcome of opening a file: an exception, no recognised container (`None`), or a container. */
  datatype Probe = OpenFails | NotAudio | Opened(audio: AudioFile)

  /**
   * One path met by the walk, with what opening it gives and the size the
   * filesystem reports (`None` when `stat` fails).
   */
  datatype FileEntry = FileEntry(path: string, probe: Probe, size: Option<nat>)

  /** The three descriptive fields, or the three tag keys a family reads them from. */
  datatype Labels = Labels(title: string, artist: string, album: string)

  /** The catalog record of one file; `duration` is the unrounded stream length in seconds. */
  datatype Track = Track(
    id: string,
    title: string,
    artist: string,
    album: string,
    filename: string,
    path: string,
    relativePath: string,
    duration: Seconds,
    size: nat,
    format: string)

  const UnknownArtist := "Unknown Artist"
  const UnknownAlbum := "Unknown Album"

  /** The fields a record starts from: the file's stem and two placeholders. */
  function Defaults(path: string): Labels {
    Labels(Stem(path), UnknownArtist, UnknownAlbum)
  }

  /** The lower-cased suffix without its dot. */
  function Format(path: string): string {
    var s := Lower(Suffix(path));
    if |s| >= 1 then s[1..] else ""
  }

  /** Python's `found or fallback` on a getter result: `None` and "" are false. */
  function OrElse(found: Option<string>, fallback: string): string {
    if found.Some? && found.value != "" then found.value else fallback
  }

  /** The fixed title, artist and album keys of each named family. */
  function KeysOf(kind: Kind): Labels
    requires kind != OtherKind
  {
    match kind
    case Mp3 => Labels("TIT2", "TPE1", "TALB")
    case Mp4 => Labels("\U{A9}nam", "\U{A9}ART", "\U{A9}alb")
    case Flac => Labels("TITLE", "ARTIST", "ALBUM")
  }

  /** The getter a named family uses: Vorbis comments for FLAC, the plain lookup otherwise. */
  function ReadTag(kind: Kind, tags: Option<TagList>, key: string): Option<string> {
    if kind == Flac then GetVorbisTag(tags, key) else GetTag(tags, key)
  }

  /** A named family: each field is its own key's value, unless that is missing or empty. */
  function NamedLabels(audio: AudioFile, d: Labels): Labels
    requires audio.kind != OtherKind
  {
    var keys := KeysOf(audio.kind);
    Labels(
      OrElse(ReadTag(audio.kind, audio.tags, keys.title), d.title),
      OrElse(ReadTag(audio.kind, audio.tags, keys.artist), d.artist),
      OrElse(ReadTag(audio.kind, audio.tags, keys.album), d.album))
  }

  /** Which field a key sets in the generic heuristic; "title" is tested first, then "artist", then "album". */
  datatype Field = TitleField | ArtistField | AlbumField | NoField

  function Classify(key: string): Field {
    var k := Lower(key);
    if Contains(k, "title") then TitleField
    else if Contains(k, "artist") then ArtistField
    else if Contains(k, "album") then AlbumField
    else NoField
  }

  function FieldOf(l: Labels, f: Field): string
    requires f != NoField
  {
    match f
    case TitleField => l.title
    case ArtistField => l.artist
    case AlbumField => l.album
  }

  /** The generic heuristic fails on a matching key whose value is an empty list (indexing it raises). */
  predicate Raises(tags: TagList) {
    exists i | 0 <= i < |tags| :: Classify(tags[i].0) != NoField && tags[i].1 == Items([])
  }

  /** The text a matching value contributes: a list's first element, or the value itself. */
  function ItemText(v: TagValue): string {
    match v
    case Text(s) => s
    case Items(xs) => if |xs| > 0 then xs[0] else ""  // an empty list raises instead; see Raises
  }

  /** The value of the LAST key classified as `f`, or `fallback` when no key is. */
  function LastMatch(tags: TagList, f: Field, fallback: string): string {
    if |tags| == 0 then fallback
    else if Classify(tags[|tags| - 1].0) == f then ItemText(tags[|tags| - 1].1)
    else LastMatch(tags[..|tags| - 1], f, fallback)
  }

  /** The generic heuristic: last match wins per field; a matching empty list fails the file. */
  function GenericLabels(tags: TagList, d: Labels): Option<Labels> {
    if Raises(tags) then None
    else Some(Labels(
      LastMatch(tags, TitleField, d.title),
      LastMatch(tags, ArtistField, d.artist),
      LastMatch(tags, AlbumField, d.album)))
  }

  /** Format dispatch: the named families read their own keys; any other container uses the heuristic. */
  function ReadLabels(audio: AudioFile, d: Labels): Option<Labels> {
    if audio.kind == OtherKind then GenericLabels(audio.tags.GetOr([]), d)
    else Some(NamedLabels(audio, d))
  }

  /** The fields of a file that opened: the defaults, overridden by what its container's tags say. */
  function EntryLabels(e: FileEntry): Option<Labels> {
    if e.probe.Opened? then ReadLabels(e.probe.audio, Defaults(e.path)) else Some(Defaults(e.path))
  }

  /** The stream length a container reports, or 0. */
  function Duration(probe: Probe): Seconds {
    if probe.Opened? then probe.audio.length.GetOr(0.0) else 0.0
  }

  /** The record extracted from `e`, or `None` when any step fails. */
  function TrackInfo(e: FileEntry, musicDir: string, hash: string -> string): Option<Track> {
    if e.probe.OpenFails? then None
    else
      var labels := EntryLabels(e);
      var rel := RelativeTo(e.path, musicDir);
      if labels.None? || rel.None? || e.size.None? then None
      else Some(Track(hash(e.path), labels.value.title, labels.value.artist, labels.value.album,
                      Name(e.path), e.path, rel.value, Duration(e.probe), e.size.value, Format(e.path)))
  }

  /**
   * The generic heuristic as the server runs it: one forward pass over the
   * tags that overwrites a field on every matching key, failing on a
   * matching empty list.
   */
  method ScanGenericTags(tags: TagList, d: Labels) returns (r: Option<Labels>)
    ensures r == GenericLabels(tags, d)
  {
    var title, artist, album := d.title, d.artist, d.album;
    var i := 0;
    while i < |tags|
      invariant 0 <= i <= |tags|
      invariant !Raises(tags[..i])
      invariant title == LastMatch(tags[..i], TitleField, d.title)
      invariant artist == LastMatch(tags[..i], ArtistField, d.artist)
      invariant album == LastMatch(tags[..i], AlbumField, d.album)
    {
      var (key, value) := tags[i];
      var keyLower := Lower(key);
      assert tags[..i + 1][..i] == tags[..i];
      if Contains(keyLower, "title") {
        if value == Items([]) {
          assert Classify(tags[i].0) != NoField && tags[i].1 == Items([]);
          return None;
        }
        title := ItemText(value);
      } else if Contains(keyLower, "artist") {
        if value == Items([]) {
          assert Classify(tags[i].0) != NoField && tags[i].1 == Items([]);
          return None;
        }
        artist := ItemText(value);
      } else if Contains(keyLower, "album") {
        if value == Items([]) {
          assert Classify(tags[i].0) != NoField && tags[i].1 == Items([]);
          return None;
        }
        album := ItemText(value);
      }
      i := i + 1;
    }
    assert tags[..i] == tags;
    r := Some(Labels(title, artist, album));
  }

  /**
   * The extractor as the server runs it: defaults first, then the family's
   * getters or a forward pass over the tags that overwrites a field on every
   * matching key.
   */
  method ExtractTrackInfo(e: FileEntry, musicDir: string, hash: string -> string) returns (r: Option<Track>)
    ensures r == TrackInfo(e, musicDir, hash)
  {
    var fileId := hash(e.path);
    if e.probe.OpenFails? {
      return None;
    }
    var title := Stem(e.path);
    var artist := UnknownArtist;
    var album := UnknownAlbum;
    var duration: Seconds := 0.0;
    if e.probe.Opened? {
      var audio := e.probe.audio;
      if audio.length.Some? {
        duration := audio.length.value;
      }
      match audio.kind {
        case Mp3 =>
          title := OrElse(GetTag(audio.tags, "TIT2"), title);
          artist := OrElse(GetTag(audio.tags, "TPE1"), artist);
          album := OrElse(GetTag(audio.tags, "TALB"), album);
        case Mp4 =>
          title := OrElse(GetTag(audio.tags, "\U{A9}nam"), title);
          artist := OrElse(GetTag(audio.tags, "\U{A9}ART"), artist);
          album := OrElse(GetTag(audio.tags, "\U{A9}alb"), album);
        case Flac =>
          title := OrElse(GetVorbisTag(audio.tags, "TITLE"), title);
          artist := OrElse(GetVorbisTag(audio.tags, "ARTIST"), artist);
          album := OrElse(GetVorbisTag(audio.tags, "ALBUM"), album);
        case OtherKind =>
          var labels := ScanGenericTags(audio.tags.GetOr([]), Labels(title, artist, album));
          if labels.None? {
            return None;
          }
          title, artist, album := labels.value.title, labels.value.artist, labels.value.album;
      }
    }
    var rel := RelativeTo(e.path, musicDir);
    if rel.None? || e.size.None? {
      return None;
    }
    assert EntryLabels(e) == Some(Labels(title, artist, album));
    assert duration == Duration(e.probe);
    r := Some(Track(fileId, title, artist, album, Name(e.path), e.path, rel.value,
                    duration, e.size.value, Format(e.path)));
  }

  /** Extraction fails exactly when opening raises, `stat` or `relative_to` fails, or the generic heuristic raises. */
  lemma TrackInfoFails(e: FileEntry, musicDir: string, hash: string -> string)
    ensures TrackInfo(e, musicDir, hash).None? <==>
      || e.probe.OpenFails?
      || e.size.None?
      || RelativeTo(e.path, musicDir).None?
      || (e.probe.Opened? && e.probe.audio.kind == OtherKind && Raises(e.probe.audio.tags.GetOr([])))
  {
  }

  /** A record names its own path, takes its id from that path, and carries the size `stat` gave. */
  lemma TrackFields(e: FileEntry, musicDir: string, hash: string -> string)
    requires TrackInfo(e, musicDir, hash).Some?
    ensures var t := TrackInfo(e, musicDir, hash).value;
      && t.path == e.path
      && t.id == hash(e.path)
      && t.filename == Name(e.path)
      && t.format == Format(e.path)
      && Some(t.relativePath) == RelativeTo(e.path, musicDir)
      && Some(t.size) == e.size
      && t.duration >= 0.0
  {
  }

  /** A record carries the title, artist and album its file's tags gave, and the container's length. */
  lemma TrackCarriesLabels(e: FileEntry, musicDir: string, hash: string -> string)
    requires TrackInfo(e, musicDir, hash).Some?
    ensures EntryLabels(e).Some?
    ensures var t := TrackInfo(e, musicDir, hash).value;
      && Labels(t.title, t.artist, t.album) == EntryLabels(e).value
      && t.duration == Duration(e.probe)
  {
  }

  /** The id, file name, path and format of a record depend on the path alone. */
  lemma IdentityFromPath(e1: FileEntry, e2: FileEntry, musicDir: string, hash: string -> string)
    requires e1.path == e2.path
    requires TrackInfo(e1, musicDir, hash).Some? && TrackInfo(e2, musicDir, hash).Some?
    ensures var t1, t2 := TrackInfo(e1, musicDir, hash).value, TrackInfo(e2, musicDir, hash).value;
      && t1.id == t2.id
      && t1.filename == t2.filename
      && t1.relativePath == t2.relativePath
      && t1.format == t2.format
  {
    TrackFields(e1, musicDir, hash);
    TrackFields(e2, musicDir, hash);
  }

  /** A file with no recognised container keeps every default and a zero duration. */
  lemma UnrecognisedKeepsDefaults(e: FileEntry, musicDir: string, hash: string -> string)
    requires e.probe.NotAudio?
    ensures TrackInfo(e, musicDir, hash).Some? <==> RelativeTo(e.path, musicDir).Some? && e.size.Some?
    ensures TrackInfo(e, musicDir, hash).Some? ==>
      var t := TrackInfo(e, musicDir, hash).value;
      && t.title == Stem(e.path)
      && t.artist == "Unknown Artist"
      && t.album == "Unknown Album"
      && t.duration == 0.0
  {
  }

  /**
   * A named family never fails and never consults the heuristic: each field
   * is its own key's value when that is present and non-empty, and the
   * default otherwise.
   */
  lemma NamedFamilyReadsOwnKeys(audio: AudioFile, d: Labels, f: Field)
    requires audio.kind != OtherKind && f != NoField
    ensures ReadLabels(audio, d).Some?
    ensures var found := ReadTag(audio.kind, audio.tags, FieldOf(KeysOf(audio.kind), f));
      && (found.None? || found == Some("") ==> FieldOf(ReadLabels(audio, d).value, f) == FieldOf(d, f))
      && (found.Some? && found.value != "" ==> FieldOf(ReadLabels(audio, d).value, f) == found.value)
  {
  }

  /** Two containers of one named family that agree on its three keys give the same fields. */
  lemma NamedFamilyIgnoresOtherKeys(a1: AudioFile, a2: AudioFile, d: Labels)
    requires a1.kind == a2.kind != OtherKind
    requires var keys := KeysOf(a1.kind);
      && ReadTag(a1.kind, a1.tags, keys.title) == ReadTag(a2.kind, a2.tags, keys.title)
      && ReadTag(a1.kind, a1.tags, keys.artist) == ReadTag(a2.kind, a2.tags, keys.artist)
      && ReadTag(a1.kind, a1.tags, keys.album) == ReadTag(a2.kind, a2.tags, keys.album)
    ensures ReadLabels(a1, d) == ReadLabels(a2, d)
  {
  }

  /** Last match wins: the field takes the value of the last key classified as it. */
  lemma {:induction false} LastMatchWins(tags: TagList, f: Field, fallback: string, j: nat)
    requires j < |tags| && Classify(tags[j].0) == f
    requires forall k :: j < k < |tags| ==> Classify(tags[k].0) != f
    ensures LastMatch(tags, f, fallback) == ItemText(tags[j].1)
  {
    if j < |tags| - 1 {
      LastMatchWins(tags[..|tags| - 1], f, fallback, j);
    }
  }

  /** A field no key is classified as keeps its default. */
  lemma {:induction false} NoMatchKeepsFallback(tags: TagList, f: Field, fallback: string)
    requires forall k :: 0 <= k < |tags| ==> Classify(tags[k].0) != f
    ensures LastMatch(tags, f, fallback) == fallback
  {
    if |tags| > 0 {
      NoMatchKeepsFallback(tags[..|tags| - 1], f, fallback);
    }
  }

  /**
   * The generic heuristic, field by field: without a failing entry, a field
   * holds the text of the last key classified as it (even an empty one), or
   * its default when there is none.
   */
  lemma GenericField(tags: TagList, d: Labels, f: Field)
    requires f != NoField
    ensures GenericLabels(tags, d).None? <==> Raises(tags)
    ensures !Raises(tags) && (forall k :: 0 <= k < |tags| ==> Classify(tags[k].0) != f) ==>
      FieldOf(GenericLabels(tags, d).value, f) == FieldOf(d, f)
    ensures forall j ::
      (0 <= j < |tags| && Classify(tags[j].0) == f && !Raises(tags) &&
       (forall k :: j < k < |tags| ==> Classify(tags[k].0) != f)) ==>
      FieldOf(GenericLabels(tags, d).value, f) == ItemText(tags[j].1)
  {
    if !Raises(tags) {
      if forall k :: 0 <= k < |tags| ==> Classify(tags[k].0) != f {
        NoMatchKeepsFallback(tags, f, FieldOf(d, f));
      }
      forall j | 0 <= j < |tags| && Classify(tags[j].0) == f && (forall k :: j < k < |tags| ==> Classify(tags[k].0) != f)
        ensures FieldOf(GenericLabels(tags, d).value, f) == ItemText(tags[j].1)
      {
        LastMatchWins(tags, f, FieldOf(d, f), j);
      }
    }
  }
}
