/**
 * `spotify.services.AlbumService`: fetching every album of a list of
 * artists, tagging "appears on" releases with the artist they were found
 * under, and later replacing that tag by the artist's name.
 *
 * The paged album request (`SpotifyCall.executePaging` on
 * `getArtistsAlbums`) and the artist lookup (`SpotifyCall.execute` on
 * `getSeveralArtists`) are functions from the request to what the call
 * returns or throws.
 */
module Albums {
  import opened Lang
  import opened SpotifyObjects
  import SpotifyUtils

  const MAX_ALBUM_FETCH_LIMIT: nat := 50

  /** `getArtistsAlbums(artistId).market(market).limit(limit).album_type(albumType)`. */
  datatype ArtistAlbumsRequest = ArtistAlbumsRequest(artistId: string, market: Option<string>, limit: nat, albumType: string)

  type AlbumPager = ArtistAlbumsRequest -> Result<seq<Album>, Exception>

  /** `getSeveralArtists(ids)`: one entry per id, null for an unknown one. */
  type ArtistLookup = seq<Option<string>> -> Result<seq<Option<FullArtist>>, Exception>

  // ---------------------------------------------------------------------------
  // The album group string

  function GroupNames(groups: seq<AlbumGroup>): seq<string>
  {
    seq(|groups|, i requires 0 <= i < |groups| => GroupName(groups[i]))
  }

  /** `createAlbumGroupString`: a `StringJoiner(",")` fed the groups' names in order. */
  method CreateAlbumGroupString(enabledAlbumGroups: seq<AlbumGroup>) returns (r: string)
    ensures r == Join(",", GroupNames(enabledAlbumGroups))
  {
    var added: seq<string> := [];
    r := "";
    for i := 0 to |enabledAlbumGroups|
      invariant added == GroupNames(enabledAlbumGroups[..i])
      invariant r == Join(",", added)
    {
      var name := GroupName(enabledAlbumGroups[i]);
      JoinSnoc(",", added, name);
      r := if |added| == 0 then name else r + "," + name;
      added := added + [name];
      assert GroupNames(enabledAlbumGroups[..i + 1]) == GroupNames(enabledAlbumGroups[..i]) + [name];
    }
    assert enabledAlbumGroups[..|enabledAlbumGroups|] == enabledAlbumGroups;
  }

  /**
   * The group string is empty exactly for no groups, and splitting it on
   * commas gives the groups' names back in order.
   */
  lemma AlbumGroupStringSplits(groups: seq<AlbumGroup>)
    ensures Join(",", GroupNames(groups)) == "" <==> |groups| == 0
    ensures |groups| > 0 ==> JavaSplit(Join(",", GroupNames(groups)), ',') == GroupNames(groups)
  {
    var names := GroupNames(groups);
    if |groups| > 0 {
      SplitJoin(names, ',');
      var s := Join(",", names);
      if |names| == 1 {
        assert s == names[0];
      }
      if ',' !in s {
        SplitAllNoSeparator(s, ',');
      }
      assert JavaSplit(s, ',') == names;
    }
  }

  // ---------------------------------------------------------------------------
  // Tagging "appears on" releases

  /** The artist whose name is the id an "appears on" release was found under. */
  function OriginTag(artistId: string): Artist
  {
    Artist(None, Some(artistId), None)
  }

  /**
   * The album `appendStringToArtist` builds: a fresh builder given the
   * artists plus the tag and six of the album's fields; the others are unset.
   */
  function WithOriginArtist(artistId: string, album: Album): (r: Album)
    ensures |r.artists| == |album.artists| + 1 && r.artists[..|album.artists|] == album.artists
    ensures r.artists[|album.artists|] == OriginTag(artistId)
    ensures r.albumGroup == album.albumGroup && r.albumType == album.albumType && r.id == album.id
    ensures r.name == album.name && r.releaseDate == album.releaseDate
    ensures r.releaseDatePrecision == album.releaseDatePrecision
    ensures r.uri.None? && r.images.None?
  {
    EMPTY_ALBUM.(artists := album.artists + [OriginTag(artistId)], albumGroup := album.albumGroup,
      albumType := album.albumType, id := album.id, name := album.name, releaseDate := album.releaseDate,
      releaseDatePrecision := album.releaseDatePrecision)
  }

  /** `appendStringToArtist`: copies the artists into an array one longer, the tag last. */
  method AppendStringToArtist(artistId: string, album: Album) returns (r: Album)
    ensures r == WithOriginArtist(artistId, album)
  {
    var n := |album.artists|;
    var appendedArtists := new Artist[n + 1];
    appendedArtists[n] := OriginTag(artistId);
    for i := 0 to n
      invariant appendedArtists[n] == OriginTag(artistId)
      invariant forall j :: 0 <= j < i ==> appendedArtists[j] == album.artists[j]
    {
      appendedArtists[i] := album.artists[i];
    }
    assert appendedArtists[..] == album.artists + [OriginTag(artistId)];
    r := EMPTY_ALBUM.(artists := appendedArtists[..], albumGroup := album.albumGroup,
      albumType := album.albumType, id := album.id, name := album.name, releaseDate := album.releaseDate,
      releaseDatePrecision := album.releaseDatePrecision);
  }

  /** One album through `attachOriginArtistIdForAppearsOnReleases`: a null group throws. */
  function AttachedOne(artistId: string, album: Album): Result<Album, Exception>
  {
    if album.albumGroup.None? then Failure(NullPointer)
    else if album.albumGroup.value == APPEARS_ON then Success(WithOriginArtist(artistId, album))
    else Success(album)
  }

  /** The albums through `attachOriginArtistIdForAppearsOnReleases`, in order. */
  function Attached(artistId: string, albums: seq<Album>): Result<seq<Album>, Exception>
  {
    if |albums| == 0 then Success([])
    else
      var earlier := Attached(artistId, albums[..|albums| - 1]);
      if earlier.Failure? then earlier
      else
        var last := AttachedOne(artistId, albums[|albums| - 1]);
        if last.Failure? then Failure(last.error) else Success(earlier.value + [last.value])
  }

  /**
   * Tagging fails, with a `NullPointerException`, exactly when some album
   * has no group; otherwise it keeps length and order, tags every
   * "appears on" release and leaves every other album as it was.
   */
  lemma {:induction false} AttachedShape(artistId: string, albums: seq<Album>)
    ensures var r := Attached(artistId, albums);
      && (r.Failure? <==> exists i :: 0 <= i < |albums| && albums[i].albumGroup.None?)
      && (r.Failure? ==> r.error == NullPointer)
      && (r.Success? ==>
            |r.value| == |albums|
            && forall i :: 0 <= i < |albums| ==>
              r.value[i] == if albums[i].albumGroup == Some(APPEARS_ON) then WithOriginArtist(artistId, albums[i]) else albums[i])
  {
    if |albums| > 0 {
      var init := albums[..|albums| - 1];
      AttachedShape(artistId, init);
      assert forall i :: 0 <= i < |init| ==> init[i] == albums[i];
    }
  }

  /** `attachOriginArtistIdForAppearsOnReleases(artistId, albumsOfArtist)`. */
  method AttachOriginArtistIdForAppearsOnReleases(artistId: string, albumsOfArtist: seq<Album>)
    returns (r: Result<seq<Album>, Exception>)
    ensures r == Attached(artistId, albumsOfArtist)
  {
    var albumsExtended: seq<Album> := [];
    for i := 0 to |albumsOfArtist|
      invariant Attached(artistId, albumsOfArtist[..i]) == Success(albumsExtended)
    {
      assert albumsOfArtist[..i + 1][..i] == albumsOfArtist[..i];
      var album := albumsOfArtist[i];
      if album.albumGroup.None? {
        AttachedStopsAt(artistId, albumsOfArtist, i);
        return Failure(NullPointer);
      }
      if album.albumGroup.value == APPEARS_ON {
        album := AppendStringToArtist(artistId, album);
      }
      albumsExtended := albumsExtended + [album];
    }
    assert albumsOfArtist[..|albumsOfArtist|] == albumsOfArtist;
    return Success(albumsExtended);
  }

  /** What the execution could not have done differently on an earlier failure. */
  lemma AttachedStopsAt(artistId: string, albums: seq<Album>, i: nat)
    requires i < |albums| && albums[i].albumGroup.None?
    ensures Attached(artistId, albums) == Failure(NullPointer)
  {
    AttachedShape(artistId, albums);
  }

  // ---------------------------------------------------------------------------
  // All albums of all artists

  /** `getAlbumIdsOfSingleArtist`: the artist's paged albums, tagged. */
  function AlbumsOfSingleArtist(artistId: string, albumGroups: string, market: Option<string>, pager: AlbumPager): Result<seq<Album>, Exception>
  {
    var fetched := pager(ArtistAlbumsRequest(artistId, market, MAX_ALBUM_FETCH_LIMIT, albumGroups));
    if fetched.Failure? then fetched else Attached(artistId, fetched.value)
  }

  /** The artists' albums one artist after the other; the first failure ends it. */
  function AlbumsOfArtists(artists: seq<string>, albumGroups: string, market: Option<string>, pager: AlbumPager): Result<seq<Album>, Exception>
  {
    if |artists| == 0 then Success([])
    else
      var earlier := AlbumsOfArtists(artists[..|artists| - 1], albumGroups, market, pager);
      if earlier.Failure? then earlier
      else
        var last := AlbumsOfSingleArtist(artists[|artists| - 1], albumGroups, market, pager);
        if last.Failure? then last else Success(earlier.value + last.value)
  }

  /** `getAllAlbumsOfArtists(artists, enabledAlbumGroups, market)`. */
  method GetAllAlbumsOfArtists(artists: seq<string>, enabledAlbumGroups: seq<AlbumGroup>, market: Option<string>, pager: AlbumPager)
    returns (r: Result<seq<Album>, Exception>)
    ensures r == AlbumsOfArtists(artists, Join(",", GroupNames(enabledAlbumGroups)), market, pager)
  {
    var albumGroupString := CreateAlbumGroupString(enabledAlbumGroups);
    var albums: seq<Album> := [];
    for i := 0 to |artists|
      invariant AlbumsOfArtists(artists[..i], albumGroupString, market, pager) == Success(albums)
    {
      assert artists[..i + 1][..i] == artists[..i];
      var fetched := pager(ArtistAlbumsRequest(artists[i], market, MAX_ALBUM_FETCH_LIMIT, albumGroupString));
      if fetched.Failure? {
        AlbumsOfArtistsStopsAt(artists, i, albumGroupString, market, pager);
        return Failure(fetched.error);
      }
      var albumIdsOfSingleArtist := AttachOriginArtistIdForAppearsOnReleases(artists[i], fetched.value);
      if albumIdsOfSingleArtist.Failure? {
        AlbumsOfArtistsStopsAt(artists, i, albumGroupString, market, pager);
        return albumIdsOfSingleArtist;
      }
      albums := albums + albumIdsOfSingleArtist.value;
    }
    assert artists[..|artists|] == artists;
    return Success(albums);
  }

  /** The first artist whose albums cannot be fetched ends the whole fetch with that failure. */
  lemma {:induction false} AlbumsOfArtistsStopsAt(artists: seq<string>, i: nat, albumGroups: string, market: Option<string>, pager: AlbumPager)
    requires i < |artists|
    requires AlbumsOfArtists(artists[..i], albumGroups, market, pager).Success?
    requires AlbumsOfSingleArtist(artists[i], albumGroups, market, pager).Failure?
    ensures AlbumsOfArtists(artists, albumGroups, market, pager) == AlbumsOfSingleArtist(artists[i], albumGroups, market, pager)
    decreases |artists|
  {
    var init := artists[..|artists| - 1];
    if i < |init| {
      assert init[..i] == artists[..i];
      AlbumsOfArtistsStopsAt(init, i, albumGroups, market, pager);
    } else {
      assert init == artists[..i];
    }
  }

  /** Each artist's albums, for artists that all succeed. */
  function PerArtist(artists: seq<string>, albumGroups: string, market: Option<string>, pager: AlbumPager): seq<seq<Album>>
    requires forall i :: 0 <= i < |artists| ==> AlbumsOfSingleArtist(artists[i], albumGroups, market, pager).Success?
  {
    seq(|artists|, i requires 0 <= i < |artists| && AlbumsOfSingleArtist(artists[i], albumGroups, market, pager).Success? =>
      AlbumsOfSingleArtist(artists[i], albumGroups, market, pager).value)
  }

  /**
   * All albums are the per-artist results concatenated in artist order;
   * when some artist fails, the result is the first failure.
   */
  lemma {:induction false} AlbumsOfArtistsConcatenates(artists: seq<string>, albumGroups: string, market: Option<string>, pager: AlbumPager)
    ensures var r := AlbumsOfArtists(artists, albumGroups, market, pager);
      && (r.Success? <==> forall i :: 0 <= i < |artists| ==> AlbumsOfSingleArtist(artists[i], albumGroups, market, pager).Success?)
      && (r.Success? ==> r.value == Flatten(PerArtist(artists, albumGroups, market, pager)))
      && (r.Failure? ==>
            exists k :: 0 <= k < |artists|
              && (forall i :: 0 <= i < k ==> AlbumsOfSingleArtist(artists[i], albumGroups, market, pager).Success?)
              && r == AlbumsOfSingleArtist(artists[k], albumGroups, market, pager))
  {
    if |artists| > 0 {
      var init := artists[..|artists| - 1];
      AlbumsOfArtistsConcatenates(init, albumGroups, market, pager);
      assert forall i :: 0 <= i < |init| ==> init[i] == artists[i];
      var r := AlbumsOfArtists(artists, albumGroups, market, pager);
      if r.Success? {
        var all := PerArtist(artists, albumGroups, market, pager);
        assert all == PerArtist(init, albumGroups, market, pager) + [all[|artists| - 1]];
        FlattenSnoc(PerArtist(init, albumGroups, market, pager), all[|artists| - 1]);
      }
    }
  }

  lemma FlattenSnoc<T>(parts: seq<seq<T>>, last: seq<T>)
    ensures Flatten(parts + [last]) == Flatten(parts) + last
  {
    FlattenAppend(parts, [last]);
    assert Flatten([last]) == last + Flatten([last][1..]);
  }

  // ---------------------------------------------------------------------------
  // Resolving the tags

  predicate IsAppearsOn(album: Album)
  {
    album.albumGroup == Some(APPEARS_ON)
  }

  /** `filter(album -> AlbumGroup.APPEARS_ON.equals(album.getAlbumGroup()))`: the "appears on" releases, in order. */
  function AppearsOnReleases(albums: seq<Album>): (r: seq<Album>)
    ensures |r| <= |albums|
    ensures forall k :: 0 <= k < |r| ==> IsAppearsOn(r[k]) && r[k] in albums
  {
    if |albums| == 0 then []
    else
      var earlier := AppearsOnReleases(albums[..|albums| - 1]);
      var last := albums[|albums| - 1];
      if IsAppearsOn(last) then earlier + [last] else earlier
  }

  /**
   * `r` is the "appears on" releases of `albums` in order: `r[k]` sits at
   * position `idx[k]` of the input, the positions increase, and every
   * "appears on" position is one of them.
   */
  predicate PicksAppearsOnInOrder(albums: seq<Album>, r: seq<Album>, idx: seq<nat>)
  {
    && |idx| == |r|
    && (forall k :: 0 <= k < |idx| ==> idx[k] < |albums| && r[k] == albums[idx[k]])
    && (forall k, l :: 0 <= k < l < |idx| ==> idx[k] < idx[l])
    && (forall i :: 0 <= i < |albums| && IsAppearsOn(albums[i]) ==> i in idx)
  }

  lemma KeepAppearsOn(front: seq<Album>, last: Album, r: seq<Album>, idx: seq<nat>)
    requires PicksAppearsOnInOrder(front, r, idx) && IsAppearsOn(last)
    ensures PicksAppearsOnInOrder(front + [last], r + [last], idx + [|front|])
  {
    var albums, idx' := front + [last], idx + [|front|];
    forall i | 0 <= i < |albums| && IsAppearsOn(albums[i])
      ensures i in idx'
    {
      if i < |front| {
        assert albums[i] == front[i];
      } else {
        assert idx'[|idx|] == i;
      }
    }
  }

  lemma SkipOther(front: seq<Album>, last: Album, r: seq<Album>, idx: seq<nat>)
    requires PicksAppearsOnInOrder(front, r, idx) && !IsAppearsOn(last)
    ensures PicksAppearsOnInOrder(front + [last], r, idx)
  {
    var albums := front + [last];
    forall i | 0 <= i < |albums| && IsAppearsOn(albums[i])
      ensures i in idx
    {
      assert i < |front| && albums[i] == front[i];
    }
  }

  /** The filter keeps order and drops no "appears on" release. */
  lemma {:induction false} AppearsOnReleasesInOrder(albums: seq<Album>) returns (idx: seq<nat>)
    ensures PicksAppearsOnInOrder(albums, AppearsOnReleases(albums), idx)
  {
    if |albums| == 0 {
      idx := [];
    } else {
      var n := |albums| - 1;
      var front, last := albums[..n], albums[n];
      assert albums == front + [last];
      var earlier := AppearsOnReleasesInOrder(front);
      if IsAppearsOn(last) {
        KeepAppearsOn(front, last, AppearsOnReleases(front), earlier);
        idx := earlier + [n];
      } else {
        SkipOther(front, last, AppearsOnReleases(front), earlier);
        idx := earlier;
      }
    }
  }

  /** The stream of `getLastArtistName` over the "appears on" releases, in order. */
  function ViaArtistIds(albums: seq<Album>): Result<seq<Option<string>>, Exception>
  {
    if |albums| == 0 then Success([])
    else
      var earlier := ViaArtistIds(albums[..|albums| - 1]);
      var last := albums[|albums| - 1];
      if earlier.Failure? || !IsAppearsOn(last) then earlier
      else
        var via := SpotifyUtils.GetLastArtistName(last);
        if via.Failure? then Failure(via.error) else Success(earlier.value + [via.value])
  }

  type NameMap = map<Option<string>, Option<string>>

  /** `artistIdToName.put(a.getId(), a.getName())` for each artist of one lookup; a null entry throws. */
  function PutNames(found: seq<Option<FullArtist>>, names: NameMap): Result<NameMap, Exception>
  {
    if |found| == 0 then Success(names)
    else if found[0].None? then Failure(NullPointer)
    else PutNames(found[1..], names[found[0].value.id := found[0].value.name])
  }

  /**
   * Putting succeeds exactly when no entry is null; the keys are then the
   * old ones and the artists' ids, and each id maps to the name of the last
   * artist carrying it.
   */
  lemma {:induction false} PutNamesKeys(found: seq<Option<FullArtist>>, names: NameMap)
    ensures var r := PutNames(found, names);
      && (r.Success? <==> forall i :: 0 <= i < |found| ==> found[i].Some?)
      && (r.Failure? ==> r.error == NullPointer)
      && (r.Success? ==> forall k :: k in r.value <==> k in names || exists i :: 0 <= i < |found| && found[i].value.id == k)
      && (r.Success? ==> forall k :: k in names && NotAnId(found, k) ==> r.value[k] == names[k])
      && (r.Success? ==> forall i :: 0 <= i < |found| && LastWithId(found, i) ==> r.value[found[i].value.id] == found[i].value.name)
  {
    if |found| > 0 && found[0].Some? {
      var rest := found[1..];
      var id := found[0].value.id;
      var names' := names[id := found[0].value.name];
      PutNamesKeys(rest, names');
      assert forall i :: 1 <= i < |found| ==> found[i] == rest[i - 1];
      var r := PutNames(found, names);
      if r.Success? {
        forall k | k in names && NotAnId(found, k)
          ensures r.value[k] == names[k]
        {
          assert found[0].value.id != k;
          assert NotAnId(rest, k);
        }
        forall i | 0 <= i < |found| && LastWithId(found, i)
          ensures r.value[found[i].value.id] == found[i].value.name
        {
          if i > 0 {
            assert LastWithId(rest, i - 1);
          } else {
            assert NotAnId(rest, id);
          }
        }
      }
    }
  }

  /** No entry of `found` carries the id `k`; null entries carry none. */
  predicate NotAnId(found: seq<Option<FullArtist>>, k: Option<string>)
  {
    forall i :: 0 <= i < |found| ==> found[i].Some? ==> found[i].value.id != k
  }

  /** Entry `i` is present and no later entry carries its id. */
  predicate LastWithId(found: seq<Option<FullArtist>>, i: nat)
  {
    i < |found| && found[i].Some?
    && forall j :: i < j < |found| ==> found[j].Some? ==> found[j].value.id != found[i].value.id
  }

  /** The lookups, one per batch, in order, filling the map; the first failure ends them. */
  function LookUp(batches: seq<seq<Option<string>>>, lookup: ArtistLookup, names: NameMap): Result<NameMap, Exception>
  {
    if |batches| == 0 then Success(names)
    else
      var found := lookup(batches[0]);
      if found.Failure? then Failure(found.error)
      else
        var filled := PutNames(found.value, names);
        if filled.Failure? then filled else LookUp(batches[1..], lookup, filled.value)
  }

  /** The id-to-name map, or what stopped its construction. */
  function ResolvedNames(albums: seq<Album>, lookup: ArtistLookup): Result<NameMap, Exception>
  {
    var ids := ViaArtistIds(albums);
    if ids.Failure? then Failure(ids.error)
    else LookUp(SpotifyUtils.Partition(ids.value, 50), lookup, map[])
  }

  /**
   * The lookups take the "appears on" ids in batches of 1 to 50, in order,
   * ceil(n / 50) of them.
   */
  lemma LookupBatches(albums: seq<Album>)
    requires ViaArtistIds(albums).Success?
    ensures var ids := ViaArtistIds(albums).value;
      var batches := SpotifyUtils.Partition(ids, 50);
      && Flatten(batches) == ids
      && (|batches| - 1) * 50 < |ids| <= |batches| * 50
      && forall i :: 0 <= i < |batches| ==> 1 <= |batches[i]| <= 50
  {
    var ids := ViaArtistIds(albums).value;
    SpotifyUtils.PartitionFlatten(ids, 50);
    SpotifyUtils.PartitionSizes(ids, 50);
  }

  /**
   * The ids looked up are the last artist names of the "appears on"
   * releases, one per release, in order; the stream fails when one of them
   * has no artists.
   */
  lemma {:induction false} ViaArtistIdsShape(albums: seq<Album>)
    ensures var r := ViaArtistIds(albums);
      && (r.Failure? <==> exists i :: 0 <= i < |albums| && IsAppearsOn(albums[i]) && |albums[i].artists| == 0)
      && (r.Failure? ==> r.error == IndexOutOfBounds)
      && (r.Success? ==>
            var appearsOn := AppearsOnReleases(albums);
            && |r.value| == |appearsOn|
            && forall k :: 0 <= k < |r.value| ==> SpotifyUtils.GetLastArtistName(appearsOn[k]) == Success(r.value[k]))
  {
    if |albums| > 0 {
      var init := albums[..|albums| - 1];
      ViaArtistIdsShape(init);
      assert forall i :: 0 <= i < |init| ==> init[i] == albums[i];
    }
  }

  /**
   * One album after resolution: an "appears on" release whose tag names a
   * known id gets, as its last artist, that id with the name in
   * parentheses; everything else is left alone.
   */
  function ResolveAlbum(album: Album, names: NameMap): (r: Album)
    ensures |r.artists| == |album.artists|
    ensures r == album.(artists := r.artists)
    ensures |album.artists| > 0 ==> r.artists[..|album.artists| - 1] == album.artists[..|album.artists| - 1]
    ensures r != album ==> IsAppearsOn(album) && |album.artists| > 0
    ensures IsAppearsOn(album) && |album.artists| > 0 ==>
      var via := album.artists[|album.artists| - 1].name;
      if via in names && names[via].Some? then r.artists[|album.artists| - 1] == Artist(via, Some("(" + names[via].value + ")"), None)
      else r == album
  {
    if IsAppearsOn(album) && |album.artists| > 0 then
      var n := |album.artists|;
      var viaArtistId := album.artists[n - 1].name;
      if viaArtistId in names && names[viaArtistId].Some? then
        album.(artists := album.artists[..n - 1] + [Artist(viaArtistId, Some("(" + names[viaArtistId].value + ")"), None)])
      else album
    else album
  }

  /** The loop that fills `artistIdToName`, one `getSeveralArtists` call per batch of 50. */
  method LookUpArtistNames(ids: seq<Option<string>>, lookup: ArtistLookup) returns (r: Result<NameMap, Exception>)
    ensures r == LookUp(SpotifyUtils.Partition(ids, 50), lookup, map[])
  {
    var artistIdToName: NameMap := map[];
    var batches := SpotifyUtils.PartitionList(ids, 50);
    for k := 0 to |batches|
      invariant LookUp(batches, lookup, map[]) == LookUp(batches[k..], lookup, artistIdToName)
    {
      assert batches[k..][1..] == batches[k + 1..];
      var execute := lookup(batches[k]);
      if execute.Failure? {
        return Failure(execute.error);
      }
      var found := execute.value;
      ghost var before := artistIdToName;
      for j := 0 to |found|
        invariant PutNames(found, before) == PutNames(found[j..], artistIdToName)
      {
        assert found[j..][1..] == found[j + 1..];
        if found[j].None? {
          return Failure(NullPointer);
        }
        artistIdToName := artistIdToName[found[j].value.id := found[j].value.name];
      }
    }
    return Success(artistIdToName);
  }

  /**
   * `resolveViaAppearsOnArtistNames(albums)`: when the ids and the lookups
   * succeed, every album is replaced by its resolved form, in place;
   * otherwise the albums are untouched and the exception is thrown.
   */
  method ResolveViaAppearsOnArtistNames(albums: array<Album>, lookup: ArtistLookup) returns (thrown: Option<Exception>)
    modifies albums
    ensures var names := ResolvedNames(old(albums[..]), lookup);
      && (names.Failure? ==> thrown == Some(names.error) && albums[..] == old(albums[..]))
      && (names.Success? ==>
            thrown.None?
            && forall i :: 0 <= i < albums.Length ==> albums[i] == ResolveAlbum(old(albums[i]), names.value))
  {
    var relevantAppearsOnArtistsIds := ViaArtistIds(albums[..]);
    if relevantAppearsOnArtistsIds.Failure? {
      return Some(relevantAppearsOnArtistsIds.error);
    }
    var artistIdToName := LookUpArtistNames(relevantAppearsOnArtistsIds.value, lookup);
    if artistIdToName.Failure? {
      return Some(artistIdToName.error);
    }
    for i := 0 to albums.Length
      invariant forall j :: 0 <= j < i ==> albums[j] == ResolveAlbum(old(albums[j]), artistIdToName.value)
      invariant forall j :: i <= j < albums.Length ==> albums[j] == old(albums[j])
    {
      var album := albums[i];
      if IsAppearsOn(album) && |album.artists| > 0 {
        var n := |album.artists|;
        var viaArtistId := album.artists[n - 1].name;
        var viaArtistName := if viaArtistId in artistIdToName.value then artistIdToName.value[viaArtistId] else None;
        if viaArtistName.Some? {
          var viaArtistWithName := Artist(viaArtistId, Some("(" + viaArtistName.value + ")"), None);
          albums[i] := album.(artists := album.artists[..n - 1] + [viaArtistWithName]);
        }
      }
    }
    return None;
  }
}
