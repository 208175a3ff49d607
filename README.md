# Music library catalogue — a Dafny model

This project models the track-cataloguing core of the music player add-on
(`Player/app/music_server.py`):

- `MusicScanner.scan_directory` walks a music directory, keeps the files
  whose lower-cased suffix is one of `.mp3 .mp4 .m4a .flac .ogg .wav`, and
  collects one track record per file whose metadata could be extracted;
- `MusicScanner._extract_track_info` builds that record: an id (MD5 of the
  path), title, artist and album read from the tags with the file stem,
  "Unknown Artist" and "Unknown Album" as defaults, file name, path, path
  relative to the music directory, duration, size and format; any exception
  turns the whole file into "no record";
- `_get_id3_tag`, `_get_mp4_tag`, `_get_vorbis_tag` read one tag and render
  it as the first element of a non-empty list or the `str()` of the value;
- the `/api/search` filter keeps, in library order, the tracks whose
  lower-cased title, artist or album contains the lower-cased query, and
  the whole library for an empty query;
- the `/api/stream/<id>` lookup finds the first track with the id and
  answers 404 when there is none or its file has gone.

Modules, one per file:

| file | module | contents |
|---|---|---|
| `optional.dfy` | `Optional` | `Option` |
| `strings.dfy` | `Strings` | ASCII case mapping, substring test, the path parts `name`, `stem`, `suffix`, and `relative_to` |
| `tags.dfy` | `Tags` | tag lists and the three tag getters |
| `extractor.dfy` | `Extractor` | the record, the extraction function `TrackInfo`, the imperative `ExtractTrackInfo` and the generic-tag loop `ScanGenericTags` proved against it |
| `scanner.dfy` | `Scanner` | the catalogue function `Catalog` and the imperative `ScanDirectory` proved against it |
| `queries.dfy` | `Queries` | search and the stream lookup |
| `scenarios.dfy` | `Scenarios` | concrete files worked through the model |

The filesystem is input data: whether the root exists (`rootExists`), the
sequence of files the recursive walk yields (`walk`), and for each file the
outcome of opening it with the tag library (`Probe`: it raises, it is not
recognised, or it opened as MP3, MP4, FLAC or another container with a
duration and a tag list) and of `stat` (`size`). MD5 is the parameter
`hash`. The stream route takes the set of paths that exist when it is
called.

### Behaviour of the code worth knowing

- In the generic branch (containers other than MP3, MP4 and FLAC, e.g. OGG
  and WAV) every matching key overwrites the field, so the last matching key
  wins; a key is tested for "title", then "artist", then "album", so
  "albumartist" sets the artist (`Extractor.LastMatchWins`,
  `Scenarios.GenericLastKeyWins`).
- The generic branch assigns an empty string as it is; only the MP3, MP4
  and FLAC branches fall back to the default, and only on an empty string
  (Python's `or`), never on whitespace.
- In the generic branch an empty list under a matching key raises
  `IndexError`, and the file gets no record at all
  (`Scenarios.GenericEmptyListDropsFile`).
- In the MP3, MP4 and FLAC branches an empty list renders as the text "[]",
  which then becomes the title, artist or album (`Scenarios.Mp3EmptyListTitle`).
- `relative_to` is taken against the configured music directory, not the
  directory being scanned; a file outside it gets no record. When the music
  directory is the current directory ("." or ""), every relative path is
  its own relative path (`Strings.RelativeTo`).
- The tag library raising while opening a file also gives no record, like
  a failed `stat`.

## Model

| member | source | states |
|---|---|---|
| Strings.StemAndSuffix | Player/app/music_server.py:78 | when the name's last dot is neither its first nor its last character, the suffix is the name from that dot on and the stem the name before it; the suffix is empty exactly when there is no such dot, and then the stem is the whole name; stem followed by suffix is the name, and a suffix is a dot and at least one character that is neither a dot nor a separator |
| Strings.RelativeTo | Player/app/music_server.py:120 | a relative path found below a base joins back onto the base to give the path; below the current directory ("." or ""), the result fails exactly for an absolute path |
| Strings.RelativeToJoin | Player/app/music_server.py:120 | a relative path joined onto any base is found again by `relative_to` |
| Tags.GetTag | Player/app/music_server.py:131-144 | the getter returns nothing exactly when there are no tags or no entry has the key |
| Tags.GetTagReadsEntry | Player/app/music_server.py:133-135 | for the first entry with the key: a text value is returned as is, a non-empty list gives its first element, an empty list gives "[]" |
| Tags.VorbisKeysUnchanged | Player/app/music_server.py:147-152 | the Vorbis getter upper-cases the key, so for TITLE, ARTIST and ALBUM it reads the same entry as the plain getter |
| Extractor.ScanGenericTags | Player/app/music_server.py:103-111 | the loop over the tag entries computes the generic labels: last matching key per field, or failure when a matching key holds an empty list |
| Extractor.ExtractTrackInfo | Player/app/music_server.py:68-128 | the step-by-step extraction returns exactly the record (or absence of one) that `TrackInfo` defines |
| Extractor.TrackInfoFails | Player/app/music_server.py:70-128 | a file gets no record exactly when opening it raises, `stat` fails, `relative_to` fails, or the generic branch meets an empty list under a matching key |
| Extractor.TrackFields | Player/app/music_server.py:113-124 | a record's id is the digest of its path, and its file name, path, relative path, size and format are those of the file; its duration is not negative |
| Extractor.TrackCarriesLabels | Player/app/music_server.py:113-121 | a record carries the title, artist and album the extraction settled on, and the container's length (0 when there is none) |
| Extractor.IdentityFromPath | Player/app/music_server.py:113-123 | two records for the same path share id, file name, relative path and format |
| Extractor.UnrecognisedKeepsDefaults | Player/app/music_server.py:77-83 | a file the tag library does not recognise keeps the stem, "Unknown Artist", "Unknown Album" and a zero duration, and gets a record exactly when `relative_to` and `stat` succeed |
| Extractor.NamedFamilyReadsOwnKeys | Player/app/music_server.py:88-100 | for MP3, MP4 and FLAC each field is the value of its own key (TIT2/TPE1/TALB, ©nam/©ART/©alb, TITLE/ARTIST/ALBUM) when it is a non-empty string, and the default otherwise |
| Extractor.NamedFamilyIgnoresOtherKeys | Player/app/music_server.py:88-100 | two MP3, MP4 or FLAC files whose three own keys read alike get the same labels, whatever their other tags |
| Extractor.LastMatchWins | Player/app/music_server.py:104-111 | in the generic branch a field takes the value of the last key classified to it |
| Extractor.NoMatchKeepsFallback | Player/app/music_server.py:103-111 | in the generic branch a field no key is classified to keeps its default |
| Extractor.GenericField | Player/app/music_server.py:101-111 | the generic branch fails exactly when a matching key holds an empty list; otherwise each field is its default if no key matches it, and the last matching key's value if one does |
| Scanner.ScanDirectory | Player/app/music_server.py:44-65 | a missing root gives an empty list; otherwise the loop over the walk returns exactly the catalogue with the suffix filter and the extractor: in walk order, one record per supported file that yields one |
| Scanner.CatalogPrefixStep | Player/app/music_server.py:55-60 | scanning one more file appends that file's contribution to the catalogue of the files before it |
| Scanner.CatalogConcat | Player/app/music_server.py:55-62 | the catalogue of two walks one after the other is the two catalogues one after the other |
| Scanner.Isolation | Player/app/music_server.py:56-62 | a file the filter rejects, or one whose extraction fails, removes nothing else from the catalogue |
| Scanner.CatalogSize | Player/app/music_server.py:55-60 | the catalogue has at most one record per file the filter keeps, and exactly one when every kept file yields a record |
| Scanner.CatalogSound | Player/app/music_server.py:55-60 | every catalogue record is the extraction of some kept file of the walk |
| Scanner.CatalogComplete | Player/app/music_server.py:55-60 | every kept file of the walk whose extraction succeeds is in the catalogue |
| Scanner.DropDot | Player/app/music_server.py:41 | dropping the dot of a supported suffix gives one of the six format names |
| Scanner.CandidateFormat | Player/app/music_server.py:123 | a file kept by the suffix filter has one of the six format names |
| Scanner.CatalogRecordsWellFormed | Player/app/music_server.py:55-123 | every scanned record has the digest of its path as id, its path's last part as file name, one of the six formats, and the path and size of a walked file |
| Queries.Filter | Player/app/music_server.py:208-213 | the filtered list keeps library order, holds exactly the library tracks whose title, artist or album contains the query, and each of them as often as the library does |
| Queries.EveryTrackMatchesEmpty | Player/app/music_server.py:210-212 | the empty string is in every title, so every track matches the empty query |
| Queries.EmptyQueryKeepsAll | Player/app/music_server.py:210-212 | every track contains the empty query, so filtering by it returns the whole library |
| Queries.Search | Player/app/music_server.py:202-215 | an empty query returns the library; otherwise the result keeps library order, holds exactly the tracks matching the lower-cased query, and each of them as often as the library does |
| Queries.FirstWithId | Player/app/music_server.py:181 | the lookup gives the first index whose track has the id, or nothing when no track has it |
| Queries.ResolveStream | Player/app/music_server.py:179-187 | the reply is "not found" exactly when no track has the id; otherwise it serves the first such track's path if that file exists, and is "deleted" if not |
| Queries.ScannedFileResolves | Player/app/music_server.py:178-187 | a file the scan recorded is found by the id the scan gave it, provided the digest tells the walked paths apart |
| Scenarios.SongPathParts | Player/app/music_server.py:118-123 | "/music/a.mp3" is a supported file named "a.mp3", with stem "a", suffix ".mp3", format "mp3" and relative path "a.mp3" under "/music" |
| Scenarios.Mp3WithTitleAndArtist | Player/app/music_server.py:89-92 | an MP3 with TIT2 and TPE1 frames takes its title and artist from them and keeps "Unknown Album" |
| Scenarios.Mp3EmptyTitleFallsBack | Player/app/music_server.py:78-90 | an empty TIT2 frame leaves the stem as title |
| Scenarios.Mp3EmptyListTitle | Player/app/music_server.py:131-135 | an empty list under TIT2 makes the title "[]" |
| Scenarios.FlacWithoutArtist | Player/app/music_server.py:97-100 | a FLAC with a TITLE comment and no ARTIST takes the title and keeps "Unknown Artist" |
| Scenarios.ArtistKeySetsArtist | Player/app/music_server.py:105-109 | the key "artist" is classified as the artist |
| Scenarios.AlbumArtistKeySetsArtist | Player/app/music_server.py:105-111 | the key "albumartist" is classified as the artist, because "artist" is tested before "album" |
| Scenarios.LaterArtistKeyWins | Player/app/music_server.py:104-111 | of two keys classified as the artist, the later one's value is kept |
| Scenarios.GenericLastKeyWins | Player/app/music_server.py:104-111 | "artist" followed by "albumartist" leaves the album artist as artist |
| Scenarios.GenericEmptyListDropsFile | Player/app/music_server.py:104-128 | an empty list under "title" in the generic branch gives no record |
| Scenarios.UnknownIdIsNotFound | Player/app/music_server.py:181-183 | an id no track has is answered with 404 |

## Left out

- HTTP: Flask routing, JSON bodies, CORS, the HTML page, the library and scan routes' responses and the start-up code; the search and stream routes are modelled up to the data they return.
- The file transfer: `send_file`, conditional requests and the MIME type guess with its `audio/mpeg` default.
- Parsing audio files: the tag library's result is the input `Probe`; tag values are given in the string form its objects render to, and its case-insensitive key lookup for Vorbis comments is not modelled (keys compare exactly).
- MD5: the digest is the parameter `hash`; its 32 hexadecimal digits are not modelled.
- The filesystem: `exists`, the recursive walk and `stat` are inputs; paths are plain normalised strings (no `..`, no leading `./`, no repeated separators), and `relative_to` is modelled on them as a prefix test, with "." and "" as the current directory.
- Durations are non-negative by type (`Extractor.Seconds`); that the container parsers never report a negative length rests on the tag library, which is not part of this model.
- Extractor.TrackInfo: the duration is kept as an unrounded real; rounding to two decimals and floating point are not modelled.
- Strings.Lower: case mapping is ASCII only; Python's full Unicode lower-casing is not modelled.
- The global library reassignment and any concurrency between a scan and requests; the library is a parameter of the queries.
- Logging.
- `scan_directory`'s own exception handler: extraction already catches every exception, so the model folds it into the extraction failing.
