/**
 * The records exchanged between the controller, the service and the Spotify
 * Web API: the preferences built from a request, the raw search items the API
 * returns, and the shaped response sent back to the client.
 */
module Types {
  import opened Wrappers

  /** `"tracks" | "artists"`. */
  datatype RecommendationType = Tracks | Artists

  /** The preferences handed to the service (`UserPreferences` as the controller builds it). */
  datatype Preferences = Preferences(
    favoriteGenres: seq<string>,
    genreWeights: map<string, int>,
    currentActivity: string,
    recommendationType: RecommendationType,
    minReleaseYear: Option<int>)

  datatype Image = Image(url: string)

  /** An artist credited on a track; the response keeps only the name. */
  datatype ArtistRef = ArtistRef(name: string)

  /** The parts of a search item of type `track` that the response uses. */
  datatype RawTrack = RawTrack(
    id: string,
    name: string,
    artists: seq<ArtistRef>,
    albumName: string,
    albumReleaseDate: string,
    albumImages: seq<Image>,
    previewUrl: Option<string>,
    spotifyUrl: string)

  /** The parts of a search item of type `artist` that the response uses. */
  datatype RawArtist = RawArtist(
    id: string,
    name: string,
    genres: seq<string>,
    spotifyUrl: string,
    popularity: int,
    images: seq<Image>)

  /** A track as the response presents it. */
  datatype Track = Track(
    id: string,
    name: string,
    artists: seq<string>,
    album: string,
    previewUrl: Option<string>,
    externalUrl: string,
    releaseDate: string,
    albumImage: Option<string>)

  /** An artist as the response presents it. */
  datatype Artist = Artist(
    id: string,
    name: string,
    genres: seq<string>,
    externalUrl: string,
    popularity: int,
    image: Option<string>)

  /** `RecommendationResponse`: either a track list or an artist list, a message and the weights used. */
  datatype Response =
    | TrackList(tracks: seq<Track>, message: string, genreWeights: map<string, int>)
    | ArtistList(artists: seq<Artist>, message: string, genreWeights: map<string, int>)
}
