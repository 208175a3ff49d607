/**
 * Concrete files worked through in the model: the behaviours the extractor is
 * meant to have, and the quirks it has as written. Paths are left symbolic
 * except in `SongPathParts`, which works one path out in full.
 */
module Scenarios {
  import opened Optional
  import opened Strings
  import opened Tags
  import opened Extractor
  import opened Scanner
  import opened Queries

  /** "/music/a.mp3" under the root "/music": a candidate named "a.mp3" with format "mp3". */
  lemma SongPathParts()
    ensures Name("/music/a.mp3") == "a.mp3"
    ensures Stem("/music/a.mp3") == "a" && Suffix("/music/a.mp3") == ".mp3"
    ensures IsCandidate("/music/a.mp3") && Format("/music/a.mp3") == "mp3"
    ensures RelativeTo("/music/a.mp3", "/music") == Some("a.mp3")
  {
    var path := "/music/a.mp3";
    var name := "a.mp3";
    assert |path| == 12 && path[6] == '/';
    assert path[7] == 'a' && path[8] == '.' && path[9] == 'm' && path[10] == 'p' && path[11] == '3';
    assert Name(path) == name by {
      forall j | 6 < j < |path|
        ensures path[j] != '/'
      {
        assert j == 7 || j == 8 || j == 9 || j == 10 || j == 11;
      }
      LastIndexAt(path, '/', 6);
      assert path[7..] == name;
    }
    assert LastIndexOf(name, '.') == 1 by {
      assert |name| == 5 && name[1] == '.' && name[2] == 'm' && name[3] == 'p' && name[4] == '3';
      forall j | 1 < j < |name|
        ensures name[j] != '.'
      {
        assert j == 2 || j == 3 || j == 4;
      }
      LastIndexAt(name, '.', 1);
    }
    assert Suffix(path) == ".mp3" by {
      assert name[1..] == ".mp3";
    }
    assert Stem(path) == "a" by {
      assert name[..1] == "a";
    }
    assert Lower(".mp3") == ".mp3" by {
      var suffix := ".mp3";
      assert suffix[0] == '.' && suffix[1] == 'm' && suffix[2] == 'p' && suffix[3] == '3';
      forall i | 0 <= i < |suffix|
        ensures !('A' <= suffix[i] <= 'Z')
      {
        assert i == 0 || i == 1 || i == 2 || i == 3;
      }
      LowerOfLowerCase(suffix);
    }
    assert IsCandidate(path);
    assert Format(path) == "mp3";
    assert RelativeTo(path, "/music") == Some("a.mp3") by {
      var prefix := "/music/";
      assert path == prefix + name;
      assert prefix <= path && path[|prefix|..] == name;
      assert !IsCurrentDir("/music") && "/music"[5] != '/' && path != "/music";
    }
  }

  /** An MP3 whose ID3 frames give a title and an artist: both are read, the album keeps its placeholder. */
  lemma Mp3WithTitleAndArtist(path: string, musicDir: string, hash: string -> string, size: nat, tags: TagList)
    requires RelativeTo(path, musicDir).Some?
    requires tags == [("TIT2", Text("Song A")), ("TPE1", Text("Artist A"))]
    ensures var e := FileEntry(path, Opened(AudioFile(Mp3, Some(180.5), Some(tags))), Some(size));
      && TrackInfo(e, musicDir, hash).Some?
      && TrackInfo(e, musicDir, hash).value.title == "Song A"
      && TrackInfo(e, musicDir, hash).value.artist == "Artist A"
      && TrackInfo(e, musicDir, hash).value.album == "Unknown Album"
      && TrackInfo(e, musicDir, hash).value.duration == 180.5
  {
    var e := FileEntry(path, Opened(AudioFile(Mp3, Some(180.5), Some(tags))), Some(size));
    assert "TIT2"[1] != "TPE1"[1] && "TIT2"[1] != "TALB"[1] && "TPE1"[1] != "TALB"[1];
    assert GetTag(Some(tags), "TIT2") == Some("Song A") by {
      GetTagReadsEntry(tags, "TIT2", 0);
    }
    assert GetTag(Some(tags), "TPE1") == Some("Artist A") by {
      GetTagReadsEntry(tags, "TPE1", 1);
    }
    assert GetTag(Some(tags), "TALB") == None by {
      assert tags[0].0 != "TALB" && tags[1].0 != "TALB";
    }
    assert EntryLabels(e) == Some(Labels("Song A", "Artist A", UnknownAlbum));
    TrackInfoFails(e, musicDir, hash);
    TrackCarriesLabels(e, musicDir, hash);
  }

  /** An empty TIT2 frame is false for the `or`, so the title falls back to the stem. */
  lemma Mp3EmptyTitleFallsBack(path: string, musicDir: string, hash: string -> string)
    requires RelativeTo(path, musicDir).Some?
    ensures var e := FileEntry(path, Opened(AudioFile(Mp3, None, Some([("TIT2", Text(""))]))), Some(0));
      TrackInfo(e, musicDir, hash).Some? && TrackInfo(e, musicDir, hash).value.title == Stem(path)
  {
    var e := FileEntry(path, Opened(AudioFile(Mp3, None, Some([("TIT2", Text(""))]))), Some(0));
    assert EntryLabels(e).value.title == Stem(path) by {
      GetTagReadsEntry([("TIT2", Text(""))], "TIT2", 0);
    }
    TrackInfoFails(e, musicDir, hash);
    TrackCarriesLabels(e, musicDir, hash);
  }

  /** An empty list under TIT2 renders as "[]", a non-empty string: the title becomes "[]". */
  lemma Mp3EmptyListTitle(path: string, musicDir: string, hash: string -> string)
    requires RelativeTo(path, musicDir).Some?
    ensures var e := FileEntry(path, Opened(AudioFile(Mp3, None, Some([("TIT2", Items([]))]))), Some(0));
      TrackInfo(e, musicDir, hash).Some? && TrackInfo(e, musicDir, hash).value.title == "[]"
  {
    var e := FileEntry(path, Opened(AudioFile(Mp3, None, Some([("TIT2", Items([]))]))), Some(0));
    assert EntryLabels(e).value.title == "[]" by {
      GetTagReadsEntry([("TIT2", Items([]))], "TIT2", 0);
    }
    TrackInfoFails(e, musicDir, hash);
    TrackCarriesLabels(e, musicDir, hash);
  }

  /** A FLAC with a TITLE comment and no ARTIST: the title is read, the artist stays the placeholder. */
  lemma FlacWithoutArtist(path: string, musicDir: string, hash: string -> string)
    requires RelativeTo(path, musicDir).Some?
    ensures var e := FileEntry(path, Opened(AudioFile(Flac, Some(60.0), Some([("TITLE", Items(["Track 2"]))]))), Some(0));
      && TrackInfo(e, musicDir, hash).Some?
      && TrackInfo(e, musicDir, hash).value.title == "Track 2"
      && TrackInfo(e, musicDir, hash).value.artist == "Unknown Artist"
  {
    var tags: TagList := [("TITLE", Items(["Track 2"]))];
    var e := FileEntry(path, Opened(AudioFile(Flac, Some(60.0), Some(tags))), Some(0));
    assert GetVorbisTag(Some(tags), "TITLE") == Some("Track 2") by {
      VorbisKeysUnchanged(Some(tags));
      GetTagReadsEntry(tags, "TITLE", 0);
    }
    assert GetVorbisTag(Some(tags), "ARTIST") == None by {
      VorbisKeysUnchanged(Some(tags));
      assert tags[0].0 != "ARTIST" by {
        assert "TITLE"[1] != "ARTIST"[1];
      }
    }
    assert EntryLabels(e).value.title == "Track 2" && EntryLabels(e).value.artist == UnknownArtist;
    TrackInfoFails(e, musicDir, hash);
    TrackCarriesLabels(e, musicDir, hash);
  }

  /** "artist" sets the artist. */
  lemma ArtistKeySetsArtist()
    ensures Classify("artist") == ArtistField
  {
    LowerOfLowerCase("artist");
    assert "artist" <= "artist"[0..];
    assert "title"[4] == 'e' && Lacks("artist", 'e');
    MissingCharNotContained("artist", "title", 4);
  }

  /** "albumartist" contains "artist" and is tested for it before "album": it sets the artist. */
  lemma AlbumArtistKeySetsArtist()
    ensures Classify("albumartist") == ArtistField
  {
    LowerOfLowerCase("albumartist");
    assert "artist" <= "albumartist"[5..];
    assert "title"[4] == 'e' && Lacks("albumartist", 'e');
    MissingCharNotContained("albumartist", "title", 4);
  }

  /** Of two keys that both set the artist, the later one's value is kept. */
  lemma LaterArtistKeyWins(k1: string, k2: string, a1: string, a2: string, d: Labels)
    requires Classify(k1) == ArtistField && Classify(k2) == ArtistField
    ensures GenericLabels([(k1, Items([a1])), (k2, Items([a2]))], d) == Some(Labels(d.title, a2, d.album))
  {
    var tags: TagList := [(k1, Items([a1])), (k2, Items([a2]))];
    assert !Raises(tags) by {
      assert tags[0].1 != Items([]) && tags[1].1 != Items([]);
    }
    LastMatchWins(tags, ArtistField, d.artist, 1);
    NoMatchKeepsFallback(tags, TitleField, d.title);
    NoMatchKeepsFallback(tags, AlbumField, d.album);
  }

  /**
   * In the generic heuristic a later matching key overwrites an earlier
   * one: a file with "artist" and then "albumartist" ends with the album
   * artist as its artist.
   */
  lemma GenericLastKeyWins(d: Labels)
    ensures GenericLabels([("artist", Items(["A"])), ("albumartist", Items(["Various"]))], d)
      == Some(Labels(d.title, "Various", d.album))
  {
    ArtistKeySetsArtist();
    AlbumArtistKeySetsArtist();
    LaterArtistKeyWins("artist", "albumartist", "A", "Various", d);
  }

  /** In the generic heuristic an empty list under a matching key raises, and the file gets no record. */
  lemma GenericEmptyListDropsFile(path: string, musicDir: string, hash: string -> string)
    ensures var e := FileEntry(path, Opened(AudioFile(OtherKind, None, Some([("title", Items([]))]))), Some(0));
      TrackInfo(e, musicDir, hash) == None
  {
    LowerOfLowerCase("title");
    assert "title" <= "title"[0..];
    assert Classify("title") == TitleField;
    var tags: TagList := [("title", Items([]))];
    assert Classify(tags[0].0) != NoField && tags[0].1 == Items([]);
  }

  /** An id absent from the catalog is a 404, and so is every id of the empty catalog of a missing root. */
  lemma UnknownIdIsNotFound(library: seq<Track>, trackId: string, present: set<string>)
    requires forall t :: t in library ==> t.id != trackId
    ensures ResolveStream(library, trackId, present) == UnknownTrack
    ensures Status(ResolveStream(library, trackId, present)) == 404
  {
    assert forall i :: 0 <= i < |library| ==> library[i] in library;
  }
}
