/**
 * The shapes of the JSON documents the Spotify Web API returns, as far as the
 * importer reads them. Every key the importer looks up is an `Option`: `None`
 * is a key missing from the document, which makes the importer's `d["key"]`
 * raise `KeyError`.
 */
module Payload {
  import opened Wrappers

  /** The value `dateutil.parser.parse` gives for a date string; the model never looks inside it. */
  type Timestamp = int

  datatype Image = Image(url: Option<string>)

  /** One entry of an album's `artists` list. */
  datatype ArtistRef = ArtistRef(id: Option<string>, name: Option<string>)

  /** One entry of an album's `tracks.items` list. */
  datatype TrackData = TrackData(
    id: Option<string>,
    name: Option<string>,
    durationMs: Option<int>,
    trackNumber: Option<int>,
    discNumber: Option<int>)

  /** An album's `tracks` object. */
  datatype TrackList = TrackList(items: Option<seq<TrackData>>)

  /** The `album` object of a saved-album entry. */
  datatype AlbumData = AlbumData(
    id: Option<string>,
    name: Option<string>,
    totalTracks: Option<int>,
    releaseDate: Option<string>,
    popularity: Option<int>,
    images: Option<seq<Image>>,
    artists: Option<seq<ArtistRef>>,
    tracks: Option<TrackList>)

  /** One item of the "saved albums" listing. */
  datatype AlbumEntry = AlbumEntry(addedAt: Option<string>, album: Option<AlbumData>)

  /** One artist profile of the "artists by id" lookup. */
  datatype ArtistProfile = ArtistProfile(images: Option<seq<Image>>, genres: Option<seq<string>>)

  /** One page of a paginated listing: its items and the URL of the next page, if any. */
  datatype Page<T> = Page(items: seq<T>, next: Option<string>)
}
