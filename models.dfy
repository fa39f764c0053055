/**
 * The part of the database the importer writes: the Album, Artist, Track,
 * AlbumTrack and Genre tables and the two many-to-many relations
 * (album-artists, artist-genres), each keyed the way `get_or_create` looks it
 * up. `Db` is the value of all tables at one moment; `Store` holds them as
 * fields that the ORM operations update in place.
 */
module Models {
  import opened Wrappers
  import opened Payload

  datatype Album = Album(
    title: string,
    totalTracks: int,
    releaseDate: Timestamp,
    addedAt: Timestamp,
    popularity: int,
    cover: Option<string>)

  datatype Artist = Artist(name: string, image: Option<string>)

  datatype Track = Track(title: string, durationMs: int)

  /** The fields of an AlbumTrack row besides its (album, track) key. */
  datatype Placement = Placement(trackNumber: int, discNumber: int)

  /**
   * Every table, keyed by spotify_id (albums, artists, tracks), by
   * (album id, track id) (album-track rows) or by name (genres).
   * `artistOrder` lists the artist ids in the order the Artist table
   * yields them, which is the order of creation.
   */
  datatype Db = Db(
    albums: map<string, Album>,
    artists: map<string, Artist>,
    artistOrder: seq<string>,
    tracks: map<string, Track>,
    albumArtists: set<(string, string)>,
    albumTracks: map<(string, string), Placement>,
    genres: set<string>,
    artistGenres: set<(string, string)>)

  const EmptyDb := Db(map[], map[], [], map[], {}, map[], {}, {})

  /** The foreign keys point at existing rows and `artistOrder` lists each artist once. */
  ghost predicate Valid(db: Db)
  {
    (forall i, j :: 0 <= i < j < |db.artistOrder| ==> db.artistOrder[i] != db.artistOrder[j])
    && (forall a :: a in db.artistOrder <==> a in db.artists)
    && (forall p :: p in db.albumArtists ==> p.0 in db.albums && p.1 in db.artists)
    && (forall k :: k in db.albumTracks ==> k.0 in db.albums && k.1 in db.tracks)
    && (forall p :: p in db.artistGenres ==> p.0 in db.artists && p.1 in db.genres)
  }

  /** `after` holds every row of `before`: nothing was deleted. */
  ghost predicate Extends(before: Db, after: Db)
  {
    before.albums.Keys <= after.albums.Keys
    && before.artists.Keys <= after.artists.Keys
    && before.artistOrder <= after.artistOrder
    && before.tracks.Keys <= after.tracks.Keys
    && before.albumArtists <= after.albumArtists
    && before.albumTracks.Keys <= after.albumTracks.Keys
    && before.genres <= after.genres
    && before.artistGenres <= after.artistGenres
  }

  // ---------------------------------------------------------------------------
  // The ORM operations the importer uses, on a value of the tables.
  // `Insert…` is `get_or_create`: the row is added only when its key is new.
  // ---------------------------------------------------------------------------

  function InsertAlbum(db: Db, id: string, defaults: Album): Db
  {
    if id in db.albums then db else db.(albums := db.albums[id := defaults])
  }

  /** `album.save()`: the row with that id gets the new field values. */
  function StoreAlbum(db: Db, id: string, a: Album): Db
  {
    db.(albums := db.albums[id := a])
  }

  function InsertArtist(db: Db, id: string, defaults: Artist): Db
  {
    if id in db.artists then db
    else db.(artists := db.artists[id := defaults], artistOrder := db.artistOrder + [id])
  }

  function StoreArtist(db: Db, id: string, a: Artist): Db
  {
    db.(artists := db.artists[id := a])
  }

  /** `album.artists.add(artist)`: adding a pair already there changes nothing. */
  function LinkArtist(db: Db, albumId: string, artistId: string): Db
  {
    db.(albumArtists := db.albumArtists + {(albumId, artistId)})
  }

  function InsertTrack(db: Db, id: string, defaults: Track): Db
  {
    if id in db.tracks then db else db.(tracks := db.tracks[id := defaults])
  }

  function InsertAlbumTrack(db: Db, albumId: string, trackId: string, defaults: Placement): Db
  {
    var key := (albumId, trackId);
    if key in db.albumTracks then db else db.(albumTracks := db.albumTracks[key := defaults])
  }

  function InsertGenre(db: Db, name: string): Db
  {
    db.(genres := db.genres + {name})
  }

  /** `artist.genres.add(genre)`. */
  function LinkGenre(db: Db, artistId: string, name: string): Db
  {
    db.(artistGenres := db.artistGenres + {(artistId, name)})
  }

  /** The tables, updated in place by the ORM calls of the importer. */
  class Store {
    var albums: map<string, Album>
    var artists: map<string, Artist>
    var artistOrder: seq<string>
    var tracks: map<string, Track>
    var albumArtists: set<(string, string)>
    var albumTracks: map<(string, string), Placement>
    var genres: set<string>
    var artistGenres: set<(string, string)>

    function Snapshot(): Db
      reads this
    {
      Db(albums, artists, artistOrder, tracks, albumArtists, albumTracks, genres, artistGenres)
    }

    constructor ()
      ensures Snapshot() == EmptyDb && Valid(Snapshot())
    {
      albums, artists, artistOrder, tracks := map[], map[], [], map[];
      albumArtists, albumTracks, genres, artistGenres := {}, map[], {}, {};
    }

    /** `Album.objects.get_or_create(spotify_id=id, defaults=…)`. */
    method GetOrCreateAlbum(id: string, defaults: Album) returns (obj: Album, created: bool)
      modifies this
      ensures created <==> id !in old(albums)
      ensures obj == if created then defaults else old(albums)[id]
      ensures Snapshot() == InsertAlbum(old(Snapshot()), id, defaults)
    {
      created := id !in albums;
      if created {
        albums := albums[id := defaults];
      }
      obj := albums[id];
    }

    /** `album_obj.save()`. */
    method SaveAlbum(id: string, obj: Album)
      modifies this
      ensures Snapshot() == StoreAlbum(old(Snapshot()), id, obj)
    {
      albums := albums[id := obj];
    }

    /** `Artist.objects.get_or_create(spotify_id=id, defaults=…)`; a new artist comes last in the table's order. */
    method GetOrCreateArtist(id: string, defaults: Artist)
      modifies this
      ensures Snapshot() == InsertArtist(old(Snapshot()), id, defaults)
    {
      if id !in artists {
        artists := artists[id := defaults];
        artistOrder := artistOrder + [id];
      }
    }

    /** `Artist.objects.get(spotify_id=id)`: `None` is the `DoesNotExist` error. */
    method GetArtist(id: string) returns (obj: Option<Artist>)
      ensures obj == if id in artists then Some(artists[id]) else None
    {
      obj := if id in artists then Some(artists[id]) else None;
    }

    method SaveArtist(id: string, obj: Artist)
      modifies this
      ensures Snapshot() == StoreArtist(old(Snapshot()), id, obj)
    {
      artists := artists[id := obj];
    }

    /** `album_obj.artists.add(artist_obj)`. */
    method AddAlbumArtist(albumId: string, artistId: string)
      modifies this
      ensures Snapshot() == LinkArtist(old(Snapshot()), albumId, artistId)
    {
      albumArtists := albumArtists + {(albumId, artistId)};
    }

    /** `Track.objects.get_or_create(spotify_id=id, defaults=…)`. */
    method GetOrCreateTrack(id: string, defaults: Track)
      modifies this
      ensures Snapshot() == InsertTrack(old(Snapshot()), id, defaults)
    {
      if id !in tracks {
        tracks := tracks[id := defaults];
      }
    }

    /** `AlbumTrack.objects.get_or_create(album=…, track=…, defaults=…)`. */
    method GetOrCreateAlbumTrack(albumId: string, trackId: string, defaults: Placement)
      modifies this
      ensures Snapshot() == InsertAlbumTrack(old(Snapshot()), albumId, trackId, defaults)
    {
      if (albumId, trackId) !in albumTracks {
        albumTracks := albumTracks[(albumId, trackId) := defaults];
      }
    }

    /** `Genre.objects.get_or_create(name=name)`. */
    method GetOrCreateGenre(name: string)
      modifies this
      ensures Snapshot() == InsertGenre(old(Snapshot()), name)
    {
      genres := genres + {name};
    }

    /** `artist_obj.genres.add(genre_obj)`. */
    method AddArtistGenre(artistId: string, name: string)
      modifies this
      ensures Snapshot() == LinkGenre(old(Snapshot()), artistId, name)
    {
      artistGenres := artistGenres + {(artistId, name)};
    }
  }
}
