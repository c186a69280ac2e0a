/**
 * The Web API model objects the program reads and builds: only the fields it
 * touches. Every reference-typed field may be null, hence `Option`.
 */
module SpotifyObjects {
  import opened Lang

  /** `se.michaelthelin.spotify.enums.AlbumGroup`, in declaration order. */
  datatype AlbumGroup = ALBUM | APPEARS_ON | COMPILATION | SINGLE

  /** The enumeration in the order `AlbumGroup.values()` yields it. */
  const ALBUM_GROUPS: seq<AlbumGroup> := [ALBUM, APPEARS_ON, COMPILATION, SINGLE]

  /** `AlbumGroup.getGroup()`: the lower-case name the Web API uses. */
  function GroupName(g: AlbumGroup): (r: string)
    ensures ',' !in r && |r| > 0
  {
    match g
    case ALBUM => "album"
    case APPEARS_ON => "appears_on"
    case COMPILATION => "compilation"
    case SINGLE => "single"
  }

  datatype AlbumType = AlbumTypeAlbum | AlbumTypeCompilation | AlbumTypeSingle

  datatype ReleaseDatePrecision = DAY | MONTH | YEAR

  /** `Image`: its URL and its pixel dimensions. */
  datatype Image = Image(url: Option<string>, width: int, height: int)

  /** `ArtistSimplified`. */
  datatype Artist = Artist(id: Option<string>, name: Option<string>, uri: Option<string>)

  /** An `Artist` as `getSeveralArtists` returns it. */
  datatype FullArtist = FullArtist(id: Option<string>, name: Option<string>)

  /** `AlbumSimplified`. */
  datatype Album = Album(
    albumGroup: Option<AlbumGroup>,
    albumType: Option<AlbumType>,
    artists: seq<Artist>,
    id: Option<string>,
    name: Option<string>,
    releaseDate: Option<string>,
    releaseDatePrecision: Option<ReleaseDatePrecision>,
    uri: Option<string>,
    images: Option<seq<Image>>)

  /** A builder with no field set yet. */
  const EMPTY_ALBUM: Album := Album(None, None, [], None, None, None, None, None, None)

  /** `TrackSimplified`. */
  datatype TrackSimplified = TrackSimplified(id: Option<string>, name: Option<string>, durationMs: int)

  /** `Track`. */
  datatype Track = Track(id: Option<string>, name: Option<string>, uri: Option<string>, album: Album)

  /** `AudioFeatures`. */
  datatype AudioFeatures = AudioFeatures(id: Option<string>)

  /** `spotify.util.data.AlbumTrackPair`. */
  datatype AlbumTrackPair = AlbumTrackPair(album: Album, tracks: seq<TrackSimplified>)

  /** `Playlist`. */
  datatype Playlist = Playlist(id: Option<string>)

  /** `IPlaylistItem`. */
  datatype PlaylistItem = PlaylistItem(uri: Option<string>)
}
