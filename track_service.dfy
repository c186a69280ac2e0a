/**
 * `spotify.services.TrackService`: the tracks of albums, audio features,
 * and a track search that prefers an exact name match.
 *
 * Each Web API call (`SpotifyCall.execute` or `executePaging` on a request)
 * is a function from the request to what the call returns or throws; a
 * `SpotifyApiException` is `ApiException`.
 */
module Tracks {
  import opened Lang
  import opened SpotifyObjects

  const MAX_PLAYLIST_TRACK_FETCH_LIMIT: nat := 50
  const SEARCH_LIMIT: nat := 10

  /** `getAlbumsTracks(albumId).limit(limit)`. */
  datatype AlbumTracksRequest = AlbumTracksRequest(albumId: Option<string>, limit: nat)

  /** `searchTracks(query).limit(limit)`. */
  datatype SearchRequest = SearchRequest(query: string, limit: nat)

  type TrackPager = AlbumTracksRequest -> Result<seq<TrackSimplified>, Exception>

  /** The items of the search paging; they may be null. */
  type Searcher = SearchRequest -> Result<Option<seq<Track>>, Exception>

  /** `getAudioFeaturesForSeveralTracks(ids)`: one entry per id, null for an unknown one. */
  type FeatureLookup = seq<Option<string>> -> Result<seq<Option<AudioFeatures>>, Exception>

  // ---------------------------------------------------------------------------
  // Tracks of albums

  /** `getTracksOfSingleAlbum(album)`: the album with its paged tracks. */
  function TracksOfSingleAlbum(album: Album, pager: TrackPager): Result<AlbumTrackPair, Exception>
  {
    var tracksOfAlbum := pager(AlbumTracksRequest(album.id, MAX_PLAYLIST_TRACK_FETCH_LIMIT));
    if tracksOfAlbum.Failure? then Failure(tracksOfAlbum.error)
    else Success(AlbumTrackPair(album, tracksOfAlbum.value))
  }

  /** The albums' pairs one album after the other; the first failure ends it. */
  function TracksOfAlbums(albums: seq<Album>, pager: TrackPager): Result<seq<AlbumTrackPair>, Exception>
  {
    if |albums| == 0 then Success([])
    else
      var earlier := TracksOfAlbums(albums[..|albums| - 1], pager);
      if earlier.Failure? then earlier
      else
        var last := TracksOfSingleAlbum(albums[|albums| - 1], pager);
        if last.Failure? then Failure(last.error) else Success(earlier.value + [last.value])
  }

  /** `getTracksOfAlbums(albums)`. */
  method GetTracksOfAlbums(albums: seq<Album>, pager: TrackPager) returns (r: Result<seq<AlbumTrackPair>, Exception>)
    ensures r == TracksOfAlbums(albums, pager)
  {
    var albumTrackPairs: seq<AlbumTrackPair> := [];
    for i := 0 to |albums|
      invariant TracksOfAlbums(albums[..i], pager) == Success(albumTrackPairs)
    {
      assert albums[..i + 1][..i] == albums[..i];
      var tracksOfSingleAlbum := TracksOfSingleAlbum(albums[i], pager);
      if tracksOfSingleAlbum.Failure? {
        TracksOfAlbumsStopsAt(albums, i, pager);
        return Failure(tracksOfSingleAlbum.error);
      }
      albumTrackPairs := albumTrackPairs + [tracksOfSingleAlbum.value];
    }
    assert albums[..|albums|] == albums;
    return Success(albumTrackPairs);
  }

  /** The first album whose tracks cannot be fetched ends the whole fetch with that failure. */
  lemma {:induction false} TracksOfAlbumsStopsAt(albums: seq<Album>, i: nat, pager: TrackPager)
    requires i < |albums|
    requires TracksOfAlbums(albums[..i], pager).Success?
    requires TracksOfSingleAlbum(albums[i], pager).Failure?
    ensures TracksOfAlbums(albums, pager) == Failure(TracksOfSingleAlbum(albums[i], pager).error)
    decreases |albums|
  {
    var init := albums[..|albums| - 1];
    if i < |init| {
      assert init[..i] == albums[..i];
      TracksOfAlbumsStopsAt(init, i, pager);
    } else {
      assert init == albums[..i];
    }
  }

  /**
   * When every album's tracks can be fetched, there is one pair per album,
   * in album order, holding that album and its tracks; otherwise the
   * result is a failure of one of the albums.
   */
  lemma {:induction false} TracksOfAlbumsPairs(albums: seq<Album>, pager: TrackPager)
    ensures var r := TracksOfAlbums(albums, pager);
      && (r.Success? <==> forall i :: 0 <= i < |albums| ==> TracksOfSingleAlbum(albums[i], pager).Success?)
      && (r.Success? ==>
            |r.value| == |albums|
            && forall i :: 0 <= i < |albums| ==>
              r.value[i] == AlbumTrackPair(albums[i], pager(AlbumTracksRequest(albums[i].id, MAX_PLAYLIST_TRACK_FETCH_LIMIT)).value))
      && (r.Failure? ==>
            exists i :: 0 <= i < |albums| && TracksOfSingleAlbum(albums[i], pager).Failure?
              && r == Failure(TracksOfSingleAlbum(albums[i], pager).error))
  {
    if |albums| > 0 {
      var init := albums[..|albums| - 1];
      TracksOfAlbumsPairs(init, pager);
      assert forall i :: 0 <= i < |init| ==> init[i] == albums[i];
    }
  }

  // ---------------------------------------------------------------------------
  // Audio features

  /** The ids of the tracks, in order. */
  function TrackIds(tracks: seq<TrackSimplified>): seq<Option<string>>
  {
    seq(|tracks|, i requires 0 <= i < |tracks| => tracks[i].id)
  }

  /**
   * `getAudioFeatures(tracks)`: the features of the tracks' ids in one call;
   * null when that call throws a `SpotifyApiException`, which is logged;
   * any other exception passes through.
   */
  function GetAudioFeatures(tracks: seq<TrackSimplified>, lookup: FeatureLookup): (r: Result<Option<seq<Option<AudioFeatures>>>, Exception>)
    ensures r == Success(None) <==> lookup(TrackIds(tracks)).Failure? && lookup(TrackIds(tracks)).error.ApiException?
    ensures r.Failure? <==> lookup(TrackIds(tracks)).Failure? && !lookup(TrackIds(tracks)).error.ApiException?
    ensures r.Failure? ==> r.error == lookup(TrackIds(tracks)).error
    ensures r.Success? && r.value.Some? ==> r.value.value == lookup(TrackIds(tracks)).value
  {
    var audioFeatures := lookup(seq(|tracks|, i requires 0 <= i < |tracks| => tracks[i].id));
    if audioFeatures.Success? then Success(Some(audioFeatures.value))
    else if audioFeatures.error.ApiException? then Success(None)
    else Failure(audioFeatures.error)
  }

  // ---------------------------------------------------------------------------
  // Track search

  /**
   * `trackName.equalsIgnoreCase(track.getName())` under the JVM's case
   * tables: false for a null name.
   */
  predicate NameMatches(cases: CaseTables, trackName: string, track: Track)
  {
    track.name.Some? && EqualsIgnoreCase(cases, trackName, track.name.value)
  }

  /** Result `i` is the first whose name matches. */
  predicate FirstMatchAt(cases: CaseTables, trackName: string, results: seq<Track>, i: int)
  {
    0 <= i < |results| && NameMatches(cases, trackName, results[i])
    && forall j :: 0 <= j < i ==> !NameMatches(cases, trackName, results[j])
  }

  /** `filter(...).findFirst()`: the first result whose name matches. */
  function FirstMatch(cases: CaseTables, trackName: string, results: seq<Track>): (r: Option<Track>)
    ensures r.None? <==> forall i :: 0 <= i < |results| ==> !NameMatches(cases, trackName, results[i])
    ensures r.Some? ==> exists i :: FirstMatchAt(cases, trackName, results, i) && results[i] == r.value
  {
    if |results| == 0 then None
    else if NameMatches(cases, trackName, results[0]) then
      assert FirstMatchAt(cases, trackName, results, 0);
      Some(results[0])
    else
      var rest := FirstMatch(cases, trackName, results[1..]);
      assert forall i :: 1 <= i < |results| ==> results[i] == results[1..][i - 1];
      if rest.Some? then
        ghost var k :| FirstMatchAt(cases, trackName, results[1..], k) && results[1..][k] == rest.value;
        assert FirstMatchAt(cases, trackName, results, k + 1);
        rest
      else rest
  }

  /** The track the search picks: the first match, or the first result when nothing matches. */
  ghost predicate Chosen(cases: CaseTables, trackName: string, results: seq<Track>, t: Track)
  {
    (exists i :: FirstMatchAt(cases, trackName, results, i) && results[i] == t)
    || ((forall i :: 0 <= i < |results| ==> !NameMatches(cases, trackName, results[i])) && |results| > 0 && t == results[0])
  }

  /**
   * `searchTrack(trackName, artistName)`: the ten results of searching
   * "artist track"; none found gives null, else the first exact match
   * ignoring case (under the JVM's case tables `cases`), or failing that
   * the first result. Null items or a null
   * track name with results throw.
   */
  function SearchTrack(cases: CaseTables, trackName: Option<string>, artistName: Option<string>, search: Searcher): (r: Result<Option<Track>, Exception>)
    ensures var reply := search(SearchRequest(StringOf(artistName) + " " + StringOf(trackName), SEARCH_LIMIT));
      && (reply.Failure? ==> r == Failure(reply.error))
      && (reply.Success? && reply.value.None? ==> r == Failure(NullPointer))
      && (reply.Success? && reply.value.Some? && |reply.value.value| == 0 ==> r == Success(None))
      && (reply.Success? && reply.value.Some? && |reply.value.value| > 0 && trackName.None? ==> r == Failure(NullPointer))
      && (reply.Success? && reply.value.Some? && |reply.value.value| > 0 && trackName.Some? ==>
            r.Success? && r.value.Some? && Chosen(cases, trackName.value, reply.value.value, r.value.value))
  {
    var reply := search(SearchRequest(StringOf(artistName) + " " + StringOf(trackName), SEARCH_LIMIT));
    if reply.Failure? then Failure(reply.error)
    else if reply.value.None? then Failure(NullPointer)
    else
      var searchResults := reply.value.value;
      if |searchResults| > 0 then
        if trackName.None? then Failure(NullPointer)
        else
          var first := FirstMatch(cases, trackName.value, searchResults);
          Success(Some(if first.Some? then first.value else searchResults[0]))
      else Success(None)
  }

  /** An exact match wins over an earlier result that does not match, and the first of several matches wins. */
  lemma SearchPrefersFirstMatch(cases: CaseTables, trackName: string, artistName: Option<string>, search: Searcher, k: nat)
    requires var reply := search(SearchRequest(StringOf(artistName) + " " + trackName, SEARCH_LIMIT));
      reply.Success? && reply.value.Some? && k < |reply.value.value|
      && NameMatches(cases, trackName, reply.value.value[k])
      && forall j :: 0 <= j < k ==> !NameMatches(cases, trackName, reply.value.value[j])
    ensures SearchTrack(cases, Some(trackName), artistName, search) ==
      Success(Some(search(SearchRequest(StringOf(artistName) + " " + trackName, SEARCH_LIMIT)).value.value[k]))
  {
    var results := search(SearchRequest(StringOf(artistName) + " " + trackName, SEARCH_LIMIT)).value.value;
    var first := FirstMatch(cases, trackName, results);
    var i :| FirstMatchAt(cases, trackName, results, i) && results[i] == first.value;
    assert i == k;
  }

  /** Whatever the case tables, a result carrying exactly the searched name is a match, so the search never falls back to the first result. */
  lemma {:induction false} ExactNameIsMatched(cases: CaseTables, trackName: string, results: seq<Track>, k: nat)
    requires k < |results| && results[k].name == Some(trackName)
    ensures FirstMatch(cases, trackName, results).Some?
  {
    EqualsIgnoreCaseReflexiveSymmetric(cases, trackName, trackName);
    assert NameMatches(cases, trackName, results[k]);
  }
}
