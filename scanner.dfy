/**
 * The library builder (`MusicScanner.scan_directory`): walk the tree,
 * keep the paths with a supported suffix, extract each, and drop the
 * files whose extraction fails.
 *
 * The walk is an input: `rootExists` is what `Path.exists` reports for the
 * root, and `walk` lists every path `rglob('*')` yields, in its order. The
 * catalog is defined for any path filter `keep` and any extractor
 * `extract`; the scan uses `IsCandidate` and `Extraction(musicDir, hash)`.
 */
module Scanner {
  import opened Optional
  import opened Strings
  import opened Extractor

  /** The suffixes the scanner accepts, compared after lower-casing. */
  const SupportedFormats: set<string> := {".mp3", ".mp4", ".m4a", ".flac", ".ogg", ".wav"}

  predicate IsCandidate(path: string) {
    Lower(Suffix(path)) in SupportedFormats
  }

  /** The extractor the scan calls on each candidate. */
  function Extraction(musicDir: string, hash: string -> string): FileEntry -> Option<Track> {
    e => TrackInfo(e, musicDir, hash)
  }

  /** The paths of the walk that reach the extractor, in walk order. */
  function Candidates(walk: seq<FileEntry>, keep: string -> bool): seq<FileEntry> {
    if |walk| == 0 then []
    else Candidates(walk[..|walk| - 1], keep) + (if keep(walk[|walk| - 1].path) then [walk[|walk| - 1]] else [])
  }

  /** What one walked path adds to the catalog: its record, if it is kept and extraction succeeds. */
  function Contribution(e: FileEntry, keep: string -> bool, extract: FileEntry -> Option<Track>): seq<Track> {
    if keep(e.path) then
      match extract(e)
      case Some(t) => [t]
      case None => []
    else []
  }

  /** The records of a walk, in walk order. */
  function Catalog(walk: seq<FileEntry>, keep: string -> bool, extract: FileEntry -> Option<Track>): seq<Track> {
    if |walk| == 0 then []
    else Catalog(walk[..|walk| - 1], keep, extract) + Contribution(walk[|walk| - 1], keep, extract)
  }

  /**
   * The scan as the server runs it: nothing for a missing root, otherwise
   * one pass over the walk that appends each extracted record.
   */
  method ScanDirectory(rootExists: bool, walk: seq<FileEntry>, musicDir: string, hash: string -> string)
    returns (tracks: seq<Track>)
    ensures !rootExists ==> tracks == []
    ensures rootExists ==> tracks == Catalog(walk, IsCandidate, Extraction(musicDir, hash))
  {
    tracks := [];
    if !rootExists {
      return;
    }
    ghost var extract := Extraction(musicDir, hash);
    for i := 0 to |walk|
      invariant tracks == Catalog(walk[..i], IsCandidate, extract)
    {
      var entry := walk[i];
      CatalogPrefixStep(walk, i, IsCandidate, extract);
      if IsCandidate(entry.path) {
        var info := ExtractTrackInfo(entry, musicDir, hash);
        ContributionOfKept(entry, IsCandidate, extract, info);
        if info.Some? {
          tracks := tracks + [info.value];
        }
      }
    }
    assert walk[..|walk|] == walk;
  }

  /** A kept path contributes its extracted record, if there is one. */
  lemma ContributionOfKept(e: FileEntry, keep: string -> bool, extract: FileEntry -> Option<Track>, info: Option<Track>)
    requires keep(e.path) && info == extract(e)
    ensures Contribution(e, keep, extract) == if info.Some? then [info.value] else []
  {
  }

  /** One more walked path adds its contribution at the end. */
  lemma CatalogPrefixStep(walk: seq<FileEntry>, i: nat, keep: string -> bool, extract: FileEntry -> Option<Track>)
    requires i < |walk|
    ensures Catalog(walk[..i + 1], keep, extract) == Catalog(walk[..i], keep, extract) + Contribution(walk[i], keep, extract)
  {
    assert walk[..i + 1][..i] == walk[..i];
  }

  /** Traversal order is kept: the catalog of two walks in a row is the two catalogs in a row. */
  lemma {:induction false} CatalogConcat(a: seq<FileEntry>, b: seq<FileEntry>, keep: string -> bool, extract: FileEntry -> Option<Track>)
    ensures Catalog(a + b, keep, extract) == Catalog(a, keep, extract) + Catalog(b, keep, extract)
  {
    if |b| == 0 {
      assert a + b == a;
    } else {
      var b', last := b[..|b| - 1], b[|b| - 1];
      assert (a + b)[..|a + b| - 1] == a + b' && (a + b)[|a + b| - 1] == last;
      assert Catalog(a + b, keep, extract) == Catalog(a + b', keep, extract) + Contribution(last, keep, extract);
      assert Catalog(b, keep, extract) == Catalog(b', keep, extract) + Contribution(last, keep, extract);
      CatalogConcat(a, b', keep, extract);
    }
  }

  /** A file whose extraction fails, or that is not kept, leaves no trace and costs the others nothing. */
  lemma Isolation(a: seq<FileEntry>, bad: FileEntry, b: seq<FileEntry>, keep: string -> bool, extract: FileEntry -> Option<Track>)
    requires !keep(bad.path) || extract(bad).None?
    ensures Catalog(a + [bad] + b, keep, extract) == Catalog(a, keep, extract) + Catalog(b, keep, extract)
  {
    var ab := a + [bad];
    assert Catalog(ab, keep, extract) == Catalog(a, keep, extract) by {
      assert ab[..|ab| - 1] == a;
    }
    CatalogConcat(ab, b, keep, extract);
  }

  /** There are never more records than kept paths, and exactly as many when every kept path extracts. */
  lemma CatalogSize(walk: seq<FileEntry>, keep: string -> bool, extract: FileEntry -> Option<Track>)
    ensures |Catalog(walk, keep, extract)| <= |Candidates(walk, keep)|
    ensures (forall i :: 0 <= i < |walk| && keep(walk[i].path) ==> extract(walk[i]).Some?) ==>
      |Catalog(walk, keep, extract)| == |Candidates(walk, keep)|
  {
    CatalogSizeBound(walk, keep, extract);
    if forall i :: 0 <= i < |walk| && keep(walk[i].path) ==> extract(walk[i]).Some? {
      CatalogSizeExact(walk, keep, extract);
    }
  }

  /** At most one record per kept path. */
  lemma {:induction false} CatalogSizeBound(walk: seq<FileEntry>, keep: string -> bool, extract: FileEntry -> Option<Track>)
    ensures |Catalog(walk, keep, extract)| <= |Candidates(walk, keep)|
  {
    if |walk| > 0 {
      var w, last := walk[..|walk| - 1], walk[|walk| - 1];
      assert Catalog(walk, keep, extract) == Catalog(w, keep, extract) + Contribution(last, keep, extract);
      assert Candidates(walk, keep) == Candidates(w, keep) + if keep(last.path) then [last] else [];
      CatalogSizeBound(w, keep, extract);
    }
  }

  /** Exactly one record per kept path when every kept path extracts. */
  lemma {:induction false} CatalogSizeExact(walk: seq<FileEntry>, keep: string -> bool, extract: FileEntry -> Option<Track>)
    requires forall i :: 0 <= i < |walk| && keep(walk[i].path) ==> extract(walk[i]).Some?
    ensures |Catalog(walk, keep, extract)| == |Candidates(walk, keep)|
  {
    if |walk| > 0 {
      var w, last := walk[..|walk| - 1], walk[|walk| - 1];
      assert Catalog(walk, keep, extract) == Catalog(w, keep, extract) + Contribution(last, keep, extract);
      assert Candidates(walk, keep) == Candidates(w, keep) + if keep(last.path) then [last] else [];
      assert forall i :: 0 <= i < |w| ==> w[i] == walk[i];
      CatalogSizeExact(w, keep, extract);
      assert keep(last.path) ==> extract(last).Some?;
    }
  }

  /** Every record comes from a kept path of the walk, through the extractor. */
  lemma {:induction false} CatalogSound(walk: seq<FileEntry>, keep: string -> bool, extract: FileEntry -> Option<Track>, t: Track)
    requires t in Catalog(walk, keep, extract)
    ensures exists i :: 0 <= i < |walk| && keep(walk[i].path) && extract(walk[i]) == Some(t)
  {
    assert |walk| > 0;
    var w, k := walk[..|walk| - 1], |walk| - 1;
    var rest, c := Catalog(w, keep, extract), Contribution(walk[k], keep, extract);
    assert Catalog(walk, keep, extract) == rest + c;
    if t in rest {
      CatalogSound(w, keep, extract, t);
      var i :| 0 <= i < |w| && keep(w[i].path) && extract(w[i]) == Some(t);
      assert walk[i] == w[i];
      assert 0 <= i < |walk| && keep(walk[i].path) && extract(walk[i]) == Some(t);
    } else {
      assert t in c;
      ContributionMember(walk[k], keep, extract, t);
      assert 0 <= k < |walk| && keep(walk[k].path) && extract(walk[k]) == Some(t);
    }
  }

  /** A record in one path's contribution is that path's extraction. */
  lemma ContributionMember(e: FileEntry, keep: string -> bool, extract: FileEntry -> Option<Track>, t: Track)
    requires t in Contribution(e, keep, extract)
    ensures keep(e.path) && extract(e) == Some(t)
  {
  }

  /** Every kept path that extracts has its record in the catalog. */
  lemma {:induction false} CatalogComplete(walk: seq<FileEntry>, keep: string -> bool, extract: FileEntry -> Option<Track>, i: nat)
    requires i < |walk| && keep(walk[i].path) && extract(walk[i]).Some?
    ensures extract(walk[i]).value in Catalog(walk, keep, extract)
  {
    var w, k := walk[..|walk| - 1], |walk| - 1;
    var rest, c := Catalog(w, keep, extract), Contribution(walk[k], keep, extract);
    assert Catalog(walk, keep, extract) == rest + c;
    if i < k {
      assert w[i] == walk[i];
      CatalogComplete(w, keep, extract, i);
      assert extract(walk[i]).value in rest;
    } else {
      ContributionOfKept(walk[k], keep, extract, extract(walk[k]));
      assert c == [extract(walk[i]).value];
    }
  }

  lemma DropDot(s: string)
    requires s in SupportedFormats
    ensures s[1..] in {"mp3", "mp4", "m4a", "flac", "ogg", "wav"}
  {
  }

  /** A candidate's format is one of the six supported ones, without its dot. */
  lemma CandidateFormat(path: string)
    requires IsCandidate(path)
    ensures Format(path) in {"mp3", "mp4", "m4a", "flac", "ogg", "wav"}
  {
    DropDot(Lower(Suffix(path)));
  }

  /** Every record of a scanned catalog has its id from its path, its base name, and a supported format. */
  lemma CatalogRecordsWellFormed(walk: seq<FileEntry>, musicDir: string, hash: string -> string, t: Track)
    requires t in Catalog(walk, IsCandidate, Extraction(musicDir, hash))
    ensures t.id == hash(t.path)
    ensures t.filename == Name(t.path)
    ensures t.format in {"mp3", "mp4", "m4a", "flac", "ogg", "wav"}
    ensures exists i :: 0 <= i < |walk| && walk[i].path == t.path && walk[i].size == Some(t.size)
  {
    var extract := Extraction(musicDir, hash);
    CatalogSound(walk, IsCandidate, extract, t);
    var i :| 0 <= i < |walk| && IsCandidate(walk[i].path) && extract(walk[i]) == Some(t);
    var e := walk[i];
    assert TrackInfo(e, musicDir, hash) == Some(t);
    TrackFields(e, musicDir, hash);
    CandidateFormat(e.path);
    assert walk[i].path == t.path && walk[i].size == Some(t.size);
  }
}
