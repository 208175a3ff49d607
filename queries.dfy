/**
 * The read-only catalog queries behind the HTTP routes: the search filter
 * (`search_tracks`) and the id lookup that decides whether a track can be
 * streamed (`stream_track`).
 */
module Queries {
  import opened Optional
  import opened Strings
  import opened Extractor
  import opened Scanner

  /** A track matches a lower-cased query when its lower-cased title, artist or album contains it. */
  predicate Matches(t: Track, q: string) {
    Contains(Lower(t.title), q) || Contains(Lower(t.artist), q) || Contains(Lower(t.album), q)
  }

  /** `a` is `b` with some elements left out, the rest in their order. */
  predicate IsSubsequence(a: seq<Track>, b: seq<Track>) {
    || |a| == 0
    || (|b| > 0 && ((a[0] == b[0] && IsSubsequence(a[1..], b[1..])) || IsSubsequence(a, b[1..])))
  }

  lemma {:induction false} SubsequenceOfItself(s: seq<Track>)
    ensures IsSubsequence(s, s)
  {
    if |s| > 0 {
      SubsequenceOfItself(s[1..]);
    }
  }

  /**
   * The list comprehension: the matching tracks of `library`, in library
   * order and with their multiplicities.
   */
  function Filter(library: seq<Track>, q: string): (r: seq<Track>)
    ensures IsSubsequence(r, library)
    ensures forall t :: t in r <==> t in library && Matches(t, q)
    ensures forall t :: multiset(r)[t] == if Matches(t, q) then multiset(library)[t] else 0
  {
    if |library| == 0 then []
    else
      var rest := Filter(library[1..], q);
      assert library == [library[0]] + library[1..];
      if Matches(library[0], q) then
        var r := [library[0]] + rest;
        assert r[0] == library[0] && r[1..] == rest;
        r
      else rest
  }

  /** Every title contains the empty string, so every track matches the empty query. */
  lemma EveryTrackMatchesEmpty()
    ensures forall t :: Matches(t, "")
  {
    forall t: Track
      ensures Matches(t, "")
    {
      assert "" <= Lower(t.title)[0..];
    }
  }

  /** Every track contains the empty query, so filtering on it changes nothing. */
  lemma {:induction false} EmptyQueryKeepsAll(library: seq<Track>)
    ensures Filter(library, "") == library
  {
    if |library| > 0 {
      EveryTrackMatchesEmpty();
      EmptyQueryKeepsAll(library[1..]);
    }
  }

  /**
   * The search route: the whole library for an empty query, otherwise the
   * tracks whose title, artist or album contains the query, ignoring case.
   */
  function Search(library: seq<Track>, query: string): (r: seq<Track>)
    ensures query == "" ==> r == library
    ensures IsSubsequence(r, library)
    ensures forall t :: t in r <==> t in library && Matches(t, Lower(query))
    ensures forall t :: multiset(r)[t] == if Matches(t, Lower(query)) then multiset(library)[t] else 0
  {
    var q := Lower(query);
    if |q| == 0 then
      EveryTrackMatchesEmpty();
      assert q == "";
      EmptyQueryKeepsAll(library);
      SubsequenceOfItself(library);
      library
    else Filter(library, q)
  }

  /** The position of the first track with id `trackId`. */
  function FirstWithId(library: seq<Track>, trackId: string): (r: Option<nat>)
    ensures r.Some? ==> r.value < |library| && library[r.value].id == trackId
    ensures r.Some? ==> forall j :: 0 <= j < r.value ==> library[j].id != trackId
    ensures r.None? ==> forall j :: 0 <= j < |library| ==> library[j].id != trackId
  {
    if |library| == 0 then None
    else if library[0].id == trackId then Some(0)
    else match FirstWithId(library[1..], trackId)
      case None => None
      case Some(k) => Some(k + 1)
  }

  /** What the stream route answers: the file to send, or one of its two not-found replies. */
  datatype StreamReply = Serve(path: string) | UnknownTrack | FileDeleted

  /** The HTTP status of a reply. */
  function Status(reply: StreamReply): int {
    if reply.Serve? then 200 else 404
  }

  /**
   * The stream route up to the transfer: the first track with the id,
   * then whether its file still exists (`present` is the set of paths
   * that exist at request time).
   */
  function ResolveStream(library: seq<Track>, trackId: string, present: set<string>): (r: StreamReply)
    ensures r == UnknownTrack <==> forall i :: 0 <= i < |library| ==> library[i].id != trackId
    ensures forall i ::
      (0 <= i < |library| && library[i].id == trackId && (forall j :: 0 <= j < i ==> library[j].id != trackId)) ==>
      r == if library[i].path in present then Serve(library[i].path) else FileDeleted
  {
    match FirstWithId(library, trackId)
    case None => UnknownTrack
    case Some(i) => if library[i].path in present then Serve(library[i].path) else FileDeleted
  }

  /**
   * A scanned file can be streamed by the id the scan gave it, as long as
   * the digest tells the walked paths apart: the reply is its own path, or
   * "deleted" if the file has gone.
   */
  lemma ScannedFileResolves(walk: seq<FileEntry>, musicDir: string, hash: string -> string, k: nat, present: set<string>)
    requires k < |walk| && IsCandidate(walk[k].path) && TrackInfo(walk[k], musicDir, hash).Some?
    requires forall i, j :: 0 <= i < |walk| && 0 <= j < |walk| && hash(walk[i].path) == hash(walk[j].path) ==>
      walk[i].path == walk[j].path
    ensures var reply := ResolveStream(Catalog(walk, IsCandidate, Extraction(musicDir, hash)), hash(walk[k].path), present);
      reply == if walk[k].path in present then Serve(walk[k].path) else FileDeleted
  {
    var extract := Extraction(musicDir, hash);
    var library := Catalog(walk, IsCandidate, extract);
    var id := hash(walk[k].path);
    assert extract(walk[k]) == TrackInfo(walk[k], musicDir, hash);
    CatalogComplete(walk, IsCandidate, extract, k);
    TrackFields(walk[k], musicDir, hash);
    var first := FirstWithId(library, id);
    assert first.Some?;
    var t := library[first.value];
    CatalogRecordsWellFormed(walk, musicDir, hash, t);
    var m :| 0 <= m < |walk| && walk[m].path == t.path && walk[m].size == Some(t.size);
    assert t.path == walk[k].path;
  }
}
