/**
 * `import_from_spotify` (spotify_filter/spotify_import/import_logic.py): one
 * pass over the saved albums that get-or-creates albums, artists, tracks and
 * album-track rows, then one pass over all stored artists that sets their
 * image and adds their genres.
 *
 * The functions below give the tables an import leaves behind, step by step
 * in the order the source makes its ORM calls; the methods make those calls
 * on a `Store` and are proved to leave exactly those tables. A key missing
 * from a response raises `KeyError`, which ends the whole import: the rows
 * written before it stay written, and `Outcome.ok` is false.
 */
module ImportLogic {
  import opened Wrappers
  import opened Payload
  import opened Models
  import opened Api

  /** The tables after (part of) an import, and whether it ran without a `KeyError`. */
  datatype Outcome = Outcome(db: Db, ok: bool)

  /** The page size the importer uses for both listings. */
  const PageSize: int := 50

  /**
   * `images[0]["url"] if images else None`: `Some(None)` for an empty list,
   * `None` when the first image has no "url" key.
   */
  function FirstImageUrl(images: seq<Image>): Option<Option<string>>
  {
    if images == [] then Some(None)
    else if images[0].url.None? then None
    else Some(images[0].url)
  }

  // ---------------------------------------------------------------------------
  // One saved-album entry.
  // ---------------------------------------------------------------------------

  /** Every key read before the album's `get_or_create` is present. */
  predicate AlbumKeys(entry: AlbumEntry)
  {
    entry.album.Some?
    && var d := entry.album.value;
    d.id.Some? && d.name.Some? && d.totalTracks.Some? && d.releaseDate.Some?
    && entry.addedAt.Some? && d.popularity.Some? && d.images.Some?
    && FirstImageUrl(d.images.value).Some?
  }

  /** The album's spotify_id and the `defaults` of its `get_or_create`. */
  function AlbumRow(entry: AlbumEntry, parse: string -> Timestamp): (string, Album)
    requires AlbumKeys(entry)
  {
    var d := entry.album.value;
    (d.id.value,
     Album(d.name.value, d.totalTracks.value, parse(d.releaseDate.value), parse(entry.addedAt.value),
           d.popularity.value, FirstImageUrl(d.images.value).value))
  }

  /** Get-or-create the album; an album already there only gets `added_at` and `popularity` refreshed. */
  function PutAlbum(db: Db, id: string, row: Album): Db
  {
    var db1 := InsertAlbum(db, id, row);
    if id in db.albums
    then StoreAlbum(db1, id, db1.albums[id].(addedAt := row.addedAt, popularity := row.popularity))
    else db1
  }

  /** The spotify_ids of artist entries, as far as they have one. */
  function RefIds(refs: seq<ArtistRef>): set<string>
  {
    if refs == [] then {}
    else (if refs[0].id.Some? then {refs[0].id.value} else {}) + RefIds(refs[1..])
  }

  /** The spotify_ids of track entries, as far as they have one. */
  function TrackIds(items: seq<TrackData>): set<string>
  {
    if items == [] then {}
    else (if items[0].id.Some? then {items[0].id.value} else {}) + TrackIds(items[1..])
  }

  /** The relation rows that pair `owner` with each of `ids`. */
  function PairsWith(owner: string, ids: set<string>): set<(string, string)>
  {
    set x | x in ids :: (owner, x)
  }

  predicate ArtistRefKeys(ref: ArtistRef)
  {
    ref.id.Some? && ref.name.Some?
  }

  predicate TrackKeys(t: TrackData)
  {
    t.id.Some? && t.name.Some? && t.durationMs.Some? && t.trackNumber.Some? && t.discNumber.Some?
  }

  /** The loop over the album's artists: get-or-create each one and link it to the album. */
  function AfterArtistLinks(db: Db, albumId: string, refs: seq<ArtistRef>): (r: Outcome)
    ensures Extends(db, r.db)
    ensures r.ok <==> forall ref :: ref in refs ==> ArtistRefKeys(ref)
    decreases |refs|
  {
    if refs == [] then Outcome(db, true)
    else
      var ref := refs[0];
      assert ref in refs;
      if !ArtistRefKeys(ref) then Outcome(db, false)
      else
        var db1 := LinkArtist(InsertArtist(db, ref.id.value, Artist(ref.name.value, None)), albumId, ref.id.value);
        assert forall x :: x in refs ==> x == ref || x in refs[1..];
        AfterArtistLinks(db1, albumId, refs[1..])
  }

  /** One pass of the tracks loop: get-or-create the track, then its album-track row. */
  function TrackStep(db: Db, albumId: string, t: TrackData): (r: Outcome)
    ensures Extends(db, r.db)
    ensures r.ok <==> TrackKeys(t)
  {
    if t.id.None? || t.name.None? || t.durationMs.None? then Outcome(db, false)
    else
      var db1 := InsertTrack(db, t.id.value, Track(t.name.value, t.durationMs.value));
      if t.trackNumber.None? || t.discNumber.None? then Outcome(db1, false)
      else Outcome(InsertAlbumTrack(db1, albumId, t.id.value, Placement(t.trackNumber.value, t.discNumber.value)), true)
  }

  /** The tracks loop, up to the first `KeyError`. */
  function AfterTracks(db: Db, albumId: string, items: seq<TrackData>): (r: Outcome)
    ensures Extends(db, r.db)
    ensures r.ok <==> forall t :: t in items ==> TrackKeys(t)
    decreases |items|
  {
    if items == [] then Outcome(db, true)
    else
      var s := TrackStep(db, albumId, items[0]);
      assert items[0] in items;
      if !s.ok then s
      else
        assert forall x :: x in items ==> x == items[0] || x in items[1..];
        AfterTracks(s.db, albumId, items[1..])
  }

  /** Every key the processing of this entry reads is present. */
  predicate EntryKeys(entry: AlbumEntry)
  {
    AlbumKeys(entry)
    && var d := entry.album.value;
    d.artists.Some? && (forall ref :: ref in d.artists.value ==> ArtistRefKeys(ref))
    && d.tracks.Some? && d.tracks.value.items.Some?
    && (forall t :: t in d.tracks.value.items.value ==> TrackKeys(t))
  }

  /** The body of the loop over saved albums (import_logic.py:13-61). */
  function AfterEntry(db: Db, entry: AlbumEntry, parse: string -> Timestamp): (r: Outcome)
    ensures Extends(db, r.db)
    ensures r.ok <==> EntryKeys(entry)
  {
    if !AlbumKeys(entry) then Outcome(db, false)
    else
      var (id, row) := AlbumRow(entry, parse);
      var db1 := PutAlbum(db, id, row);
      var d := entry.album.value;
      if d.artists.None? then Outcome(db1, false)
      else
        var r := AfterArtistLinks(db1, id, d.artists.value);
        if !r.ok then r
        else if d.tracks.None? || d.tracks.value.items.None? then Outcome(r.db, false)
        else AfterTracks(r.db, id, d.tracks.value.items.value)
  }

  /** The loop over saved albums: the entries in order, up to the first `KeyError`. */
  function AfterEntries(db: Db, entries: seq<AlbumEntry>, parse: string -> Timestamp): (r: Outcome)
    ensures Extends(db, r.db)
    ensures r.ok <==> forall e :: e in entries ==> EntryKeys(e)
    decreases |entries|
  {
    if entries == [] then Outcome(db, true)
    else
      var r := AfterEntry(db, entries[0], parse);
      assert forall x :: x in entries ==> x == entries[0] || x in entries[1..];
      if !r.ok then r else AfterEntries(r.db, entries[1..], parse)
  }

  // ---------------------------------------------------------------------------
  // The artists phase.
  // ---------------------------------------------------------------------------

  /** The artists phase adds no album, artist, track or album-track row and no album-artist link. */
  ghost predicate SameRows(before: Db, after: Db)
  {
    after.albums == before.albums && after.artists.Keys == before.artists.Keys
    && after.artistOrder == before.artistOrder && after.tracks == before.tracks
    && after.albumArtists == before.albumArtists && after.albumTracks == before.albumTracks
  }

  /** The loop over a profile's genres: get-or-create each genre by name and add it to the artist. */
  function AfterGenres(db: Db, artistId: string, names: seq<string>): (r: Db)
    ensures r == db.(genres := db.genres + (set n | n in names),
                     artistGenres := db.artistGenres + PairsWith(artistId, set n | n in names))
    decreases |names|
  {
    if names == [] then db
    else
      assert (set n | n in names) == {names[0]} + (set n | n in names[1..]);
      AfterGenres(LinkGenre(InsertGenre(db, names[0]), artistId, names[0]), artistId, names[1..])
  }

  /** The body of the zip loop (import_logic.py:68-75) for one stored id and one profile. */
  function AfterProfile(db: Db, id: string, profile: ArtistProfile): (r: Outcome)
    ensures Extends(db, r.db)
    ensures SameRows(db, r.db)
  {
    if id !in db.artists then Outcome(db, false)
    else if profile.images.None? || FirstImageUrl(profile.images.value).None? then Outcome(db, false)
    else
      var db1 := StoreArtist(db, id, db.artists[id].(image := FirstImageUrl(profile.images.value).value));
      if profile.genres.None? then Outcome(db1, false)
      else Outcome(AfterGenres(db1, id, profile.genres.value), true)
  }

  /** `zip(ids, profiles)`: the pairs up to the shorter list's end, up to the first `KeyError`. */
  function AfterArtistsPhase(db: Db, ids: seq<string>, profiles: seq<ArtistProfile>): (r: Outcome)
    ensures Extends(db, r.db)
    ensures SameRows(db, r.db)
    decreases |ids|
  {
    if ids == [] || profiles == [] then Outcome(db, true)
    else
      var r := AfterProfile(db, ids[0], profiles[0]);
      if !r.ok then r else AfterArtistsPhase(r.db, ids[1..], profiles[1..])
  }

  /** The whole import, given the saved albums and the client's artist lookup. */
  function AfterImport(db: Db, entries: seq<AlbumEntry>, lookup: seq<string> -> seq<ArtistProfile>,
                       parse: string -> Timestamp): (r: Outcome)
    ensures Extends(db, r.db)
  {
    var r := AfterEntries(db, entries, parse);
    if !r.ok then r
    else
      var ids := r.db.artistOrder;
      AfterArtistsPhase(r.db, ids, ArtistsFetched(lookup, ids, PageSize))
  }

  // ---------------------------------------------------------------------------
  // What one entry does to the tables.
  // ---------------------------------------------------------------------------

  lemma {:induction false} RefIdsHas(refs: seq<ArtistRef>)
    ensures forall ref :: ref in refs && ref.id.Some? ==> ref.id.value in RefIds(refs)
    decreases |refs|
  {
    if refs != [] {
      RefIdsHas(refs[1..]);
      assert forall ref :: ref in refs ==> ref == refs[0] || ref in refs[1..];
    }
  }

  lemma {:induction false} TrackIdsHas(items: seq<TrackData>)
    ensures forall t :: t in items && t.id.Some? ==> t.id.value in TrackIds(items)
    decreases |items|
  {
    if items != [] {
      TrackIdsHas(items[1..]);
      assert forall t :: t in items ==> t == items[0] || t in items[1..];
    }
  }

  /** The artists loop changes no album, track, album-track or genre row and no artist already there. */
  lemma {:induction false} ArtistLinksFrame(db: Db, albumId: string, refs: seq<ArtistRef>)
    ensures var r := AfterArtistLinks(db, albumId, refs).db;
      r.albums == db.albums && r.tracks == db.tracks && r.albumTracks == db.albumTracks
      && r.genres == db.genres && r.artistGenres == db.artistGenres
      && (forall a :: a in db.artists ==> r.artists[a] == db.artists[a])
    decreases |refs|
  {
    if refs != [] && ArtistRefKeys(refs[0]) {
      var ref := refs[0];
      var db1 := LinkArtist(InsertArtist(db, ref.id.value, Artist(ref.name.value, None)), albumId, ref.id.value);
      assert AfterArtistLinks(db, albumId, refs) == AfterArtistLinks(db1, albumId, refs[1..]);
      ArtistLinksFrame(db1, albumId, refs[1..]);
    }
  }

  /** `after` has the album, artist and genre rows of `before`, and every track and album-track row it had. */
  ghost predicate TracksKept(before: Db, after: Db)
  {
    after.albums == before.albums && after.artists == before.artists && after.artistOrder == before.artistOrder
    && after.albumArtists == before.albumArtists && after.genres == before.genres
    && after.artistGenres == before.artistGenres
    && (forall t :: t in before.tracks ==> t in after.tracks && after.tracks[t] == before.tracks[t])
    && (forall k :: k in before.albumTracks ==> k in after.albumTracks && after.albumTracks[k] == before.albumTracks[k])
  }

  /** One pass of the tracks loop keeps every row it finds and, when complete, adds the track and its album-track row. */
  lemma TrackStepFacts(db: Db, albumId: string, t: TrackData)
    ensures TracksKept(db, TrackStep(db, albumId, t).db)
  {
    if t.id.Some? && t.name.Some? && t.durationMs.Some? {
      var db1 := InsertTrack(db, t.id.value, Track(t.name.value, t.durationMs.value));
      assert db1.(tracks := db.tracks) == db;
      if t.trackNumber.Some? && t.discNumber.Some? {
        var db2 := InsertAlbumTrack(db1, albumId, t.id.value, Placement(t.trackNumber.value, t.discNumber.value));
        assert db2.(albumTracks := db1.albumTracks) == db1;
      }
    }
  }

  lemma TrackStepRows(db: Db, albumId: string, t: TrackData)
    requires TrackKeys(t)
    ensures var r := TrackStep(db, albumId, t).db;
      r.tracks.Keys == db.tracks.Keys + {t.id.value}
      && r.albumTracks.Keys == db.albumTracks.Keys + {(albumId, t.id.value)}
  {
  }

  lemma TrackStepValid(db: Db, albumId: string, t: TrackData)
    requires Valid(db) && albumId in db.albums
    ensures Valid(TrackStep(db, albumId, t).db)
  {
    if t.id.Some? && t.name.Some? && t.durationMs.Some? {
      var db1 := InsertTrack(db, t.id.value, Track(t.name.value, t.durationMs.value));
      assert Valid(db1) by {
        assert db1.(tracks := db.tracks) == db;
      }
      if t.trackNumber.Some? && t.discNumber.Some? {
        var db2 := InsertAlbumTrack(db1, albumId, t.id.value, Placement(t.trackNumber.value, t.discNumber.value));
        assert Valid(db2) by {
          assert db2.(albumTracks := db1.albumTracks) == db1;
        }
      }
    }
  }

  /** The tracks loop changes no album, artist or genre row, no track and no album-track row already there. */
  lemma {:induction false} TracksFrame(db: Db, albumId: string, items: seq<TrackData>)
    ensures TracksKept(db, AfterTracks(db, albumId, items).db)
    decreases |items|
  {
    if items != [] {
      var s := TrackStep(db, albumId, items[0]);
      TrackStepFacts(db, albumId, items[0]);
      if s.ok {
        assert AfterTracks(db, albumId, items) == AfterTracks(s.db, albumId, items[1..]);
        TracksFrame(s.db, albumId, items[1..]);
      }
    }
  }

  /** An entry missing a key read before the album's `get_or_create` writes nothing. */
  lemma EntryWithoutAlbumKeys(db: Db, entry: AlbumEntry, parse: string -> Timestamp)
    requires !AlbumKeys(entry)
    ensures AfterEntry(db, entry, parse) == Outcome(db, false)
  {
  }

  /**
   * After an entry, exactly one album has its spotify_id. A new album takes
   * its fields from the entry, its cover being the first image's URL or none;
   * an album already there keeps its title, track count, release date and
   * cover, and only gets the entry's `added_at` and `popularity`. Other
   * albums are untouched.
   */
  lemma EntryAlbum(db: Db, entry: AlbumEntry, parse: string -> Timestamp)
    requires AlbumKeys(entry)
    ensures var d := entry.album.value;
      var id := d.id.value;
      var r := AfterEntry(db, entry, parse).db;
      r.albums.Keys == db.albums.Keys + {id}
      && (id !in db.albums ==>
            r.albums[id] == Album(d.name.value, d.totalTracks.value, parse(d.releaseDate.value),
                                  parse(entry.addedAt.value), d.popularity.value,
                                  if d.images.value == [] then None else d.images.value[0].url))
      && (id in db.albums ==>
            r.albums[id] == db.albums[id].(addedAt := parse(entry.addedAt.value), popularity := d.popularity.value))
      && (forall k :: k in db.albums && k != id ==> r.albums[k] == db.albums[k])
  {
    EntryFrame(db, entry, parse);
  }

  /** An entry changes no artist, track or album-track row that was already there. */
  lemma EntryKeepsRows(db: Db, entry: AlbumEntry, parse: string -> Timestamp)
    ensures var r := AfterEntry(db, entry, parse).db;
      (forall a :: a in db.artists ==> r.artists[a] == db.artists[a])
      && (forall t :: t in db.tracks ==> r.tracks[t] == db.tracks[t])
      && (forall k :: k in db.albumTracks ==> r.albumTracks[k] == db.albumTracks[k])
  {
    if AlbumKeys(entry) {
      EntryFrame(db, entry, parse);
    }
  }

  /** After the album's `get_or_create`, the two loops of an entry leave the album table as it is. */
  lemma EntryFrame(db: Db, entry: AlbumEntry, parse: string -> Timestamp)
    requires AlbumKeys(entry)
    ensures var d := entry.album.value;
      var db1 := PutAlbum(db, d.id.value, AlbumRow(entry, parse).1);
      var r := AfterEntry(db, entry, parse).db;
      r.albums == db1.albums
      && (forall a :: a in db.artists ==> r.artists[a] == db.artists[a])
      && (forall t :: t in db.tracks ==> r.tracks[t] == db.tracks[t])
      && (forall k :: k in db.albumTracks ==> r.albumTracks[k] == db.albumTracks[k])
  {
    var d := entry.album.value;
    var id := d.id.value;
    var db1 := PutAlbum(db, id, AlbumRow(entry, parse).1);
    if d.artists.Some? {
      ArtistLinksFrame(db1, id, d.artists.value);
      var r := AfterArtistLinks(db1, id, d.artists.value);
      if r.ok && d.tracks.Some? && d.tracks.value.items.Some? {
        TracksFrame(r.db, id, d.tracks.value.items.value);
      }
    }
  }

  /** After a complete entry, each of its artists and tracks exists and is linked to its album. */
  lemma EntryLinksAll(db: Db, entry: AlbumEntry, parse: string -> Timestamp)
    requires EntryKeys(entry)
    ensures var d := entry.album.value;
      var id := d.id.value;
      var r := AfterEntry(db, entry, parse).db;
      (forall ref :: ref in d.artists.value ==> ref.id.value in r.artists && (id, ref.id.value) in r.albumArtists)
      && (forall t :: t in d.tracks.value.items.value ==> t.id.value in r.tracks && (id, t.id.value) in r.albumTracks)
  {
    var d := entry.album.value;
    var id := d.id.value;
    var db1 := PutAlbum(db, id, AlbumRow(entry, parse).1);
    ArtistLinksRows(db1, id, d.artists.value);
    RefIdsHas(d.artists.value);
    var db2 := AfterArtistLinks(db1, id, d.artists.value).db;
    TracksRows(db2, id, d.tracks.value.items.value);
    TrackIdsHas(d.tracks.value.items.value);
  }

  // ---------------------------------------------------------------------------
  // What the artists phase does to the tables.
  // ---------------------------------------------------------------------------

  /** Every key the artists phase reads from a profile is present. */
  predicate ProfileKeys(p: ArtistProfile)
  {
    p.images.Some? && FirstImageUrl(p.images.value).Some? && p.genres.Some?
  }

  /** A profile with all its keys sets the image and adds every genre to the artist. */
  lemma ProfileUpdate(db: Db, id: string, profile: ArtistProfile)
    requires id in db.artists
    ensures var r := AfterProfile(db, id, profile);
      (r.ok <==> ProfileKeys(profile))
      && (r.ok ==> r.db.artists[id] == db.artists[id].(image := FirstImageUrl(profile.images.value).value))
      && (r.ok ==> forall g :: g in profile.genres.value ==> g in r.db.genres && (id, g) in r.db.artistGenres)
      && (forall a :: a in db.artists ==> r.db.artists[a].name == db.artists[a].name)
      && (forall a :: a in db.artists && a != id ==> r.db.artists[a] == db.artists[a])
  {
  }

  /** The stored ids are distinct and all name stored artists. */
  ghost predicate StoredIds(db: Db, ids: seq<string>)
  {
    (forall i, j :: 0 <= i < j < |ids| ==> ids[i] != ids[j])
    && (forall i :: 0 <= i < |ids| ==> ids[i] in db.artists)
  }

  lemma StoredIdsTail(db: Db, db1: Db, ids: seq<string>)
    requires StoredIds(db, ids) && ids != [] && db1.artists.Keys == db.artists.Keys
    ensures StoredIds(db1, ids[1..])
  {
    var rest := ids[1..];
    assert forall i :: 0 <= i < |rest| ==> rest[i] == ids[i + 1];
  }

  /** The zip loop runs to completion exactly when each of the first min(|ids|, |profiles|) profiles has its keys. */
  lemma {:induction false} PhaseCompletes(db: Db, ids: seq<string>, profiles: seq<ArtistProfile>)
    requires StoredIds(db, ids)
    ensures AfterArtistsPhase(db, ids, profiles).ok
      <==> forall j :: 0 <= j < Min(|ids|, |profiles|) ==> ProfileKeys(profiles[j])
    decreases |ids|
  {
    if ids != [] && profiles != [] {
      var r0 := AfterProfile(db, ids[0], profiles[0]);
      ProfileUpdate(db, ids[0], profiles[0]);
      if r0.ok {
        StoredIdsTail(db, r0.db, ids);
        PhaseCompletes(r0.db, ids[1..], profiles[1..]);
        assert AfterArtistsPhase(db, ids, profiles) == AfterArtistsPhase(r0.db, ids[1..], profiles[1..]);
        assert forall j :: 1 <= j < Min(|ids|, |profiles|) ==> profiles[j] == profiles[1..][j - 1];
      }
    }
  }

  /** The zip loop changes no artist's name, and no artist outside the first min(|ids|, |profiles|) ids. */
  lemma {:induction false} PhaseKeepsOthers(db: Db, ids: seq<string>, profiles: seq<ArtistProfile>)
    requires StoredIds(db, ids)
    ensures var r := AfterArtistsPhase(db, ids, profiles).db;
      var n := Min(|ids|, |profiles|);
      (forall a :: a in db.artists ==> r.artists[a].name == db.artists[a].name)
      && (forall a :: a in db.artists && a !in ids[..n] ==> r.artists[a] == db.artists[a])
    decreases |ids|
  {
    if ids != [] && profiles != [] {
      var n := Min(|ids|, |profiles|);
      var r0 := AfterProfile(db, ids[0], profiles[0]);
      ProfileUpdate(db, ids[0], profiles[0]);
      if r0.ok {
        var rest := ids[1..];
        StoredIdsTail(db, r0.db, ids);
        PhaseKeepsOthers(r0.db, rest, profiles[1..]);
        assert AfterArtistsPhase(db, ids, profiles) == AfterArtistsPhase(r0.db, rest, profiles[1..]);
        assert forall a :: a in ids[..n] <==> a == ids[0] || a in rest[..n - 1];
      }
    }
  }

  /** A completed zip loop gives each of the first min(|ids|, |profiles|) artists its profile's first image. */
  lemma {:induction false} PhaseSetsImages(db: Db, ids: seq<string>, profiles: seq<ArtistProfile>)
    requires StoredIds(db, ids)
    ensures var r := AfterArtistsPhase(db, ids, profiles);
      r.ok ==> forall j :: 0 <= j < Min(|ids|, |profiles|) ==>
        ProfileKeys(profiles[j])
        && r.db.artists[ids[j]] == db.artists[ids[j]].(image := FirstImageUrl(profiles[j].images.value).value)
    decreases |ids|
  {
    if ids != [] && profiles != [] {
      var n := Min(|ids|, |profiles|);
      var r0 := AfterProfile(db, ids[0], profiles[0]);
      ProfileUpdate(db, ids[0], profiles[0]);
      if r0.ok {
        var rest, restP := ids[1..], profiles[1..];
        StoredIdsTail(db, r0.db, ids);
        var r := AfterArtistsPhase(db, ids, profiles);
        assert r == AfterArtistsPhase(r0.db, rest, restP);
        if r.ok {
          PhaseSetsImages(r0.db, rest, restP);
          forall j | 0 <= j < n
            ensures ProfileKeys(profiles[j])
              && r.db.artists[ids[j]] == db.artists[ids[j]].(image := FirstImageUrl(profiles[j].images.value).value)
          {
            if j == 0 {
              PhaseKeepsOthers(r0.db, rest, restP);
              assert ids[0] !in rest[..n - 1];
            } else {
              assert ids[j] == rest[j - 1] && profiles[j] == restP[j - 1] && ids[j] != ids[0];
            }
          }
        }
      }
    }
  }

  /** A completed zip loop adds each genre of each of the first min(|ids|, |profiles|) profiles to its artist. */
  lemma {:induction false} PhaseAddsGenres(db: Db, ids: seq<string>, profiles: seq<ArtistProfile>)
    requires StoredIds(db, ids)
    ensures var r := AfterArtistsPhase(db, ids, profiles);
      r.ok ==> forall j :: 0 <= j < Min(|ids|, |profiles|) ==>
        ProfileKeys(profiles[j])
        && forall g :: g in profiles[j].genres.value ==> g in r.db.genres && (ids[j], g) in r.db.artistGenres
    decreases |ids|
  {
    if ids != [] && profiles != [] {
      var n := Min(|ids|, |profiles|);
      var r0 := AfterProfile(db, ids[0], profiles[0]);
      ProfileUpdate(db, ids[0], profiles[0]);
      if r0.ok {
        var rest, restP := ids[1..], profiles[1..];
        StoredIdsTail(db, r0.db, ids);
        PhaseAddsGenres(r0.db, rest, restP);
        var r := AfterArtistsPhase(db, ids, profiles);
        assert r == AfterArtistsPhase(r0.db, rest, restP);
        assert r0.db.genres <= r.db.genres && r0.db.artistGenres <= r.db.artistGenres;
        assert forall j :: 1 <= j < n ==> ids[j] == rest[j - 1] && profiles[j] == restP[j - 1];
      }
    }
  }

  /**
   * The zip loop pairs the i-th id with the i-th profile and stops at the
   * end of the shorter list: with distinct stored ids, it runs to completion
   * exactly when each of the first min(|ids|, |profiles|) profiles has its
   * keys, and then gives each of those artists its profile's first image
   * and genres. No other artist changes, and no artist's name changes.
   */
  lemma ArtistsPhaseUpdates(db: Db, ids: seq<string>, profiles: seq<ArtistProfile>)
    requires forall i, j :: 0 <= i < j < |ids| ==> ids[i] != ids[j]
    requires forall i :: 0 <= i < |ids| ==> ids[i] in db.artists
    ensures var r := AfterArtistsPhase(db, ids, profiles);
      var n := Min(|ids|, |profiles|);
      (r.ok <==> forall j :: 0 <= j < n ==> ProfileKeys(profiles[j]))
      && (r.ok ==> forall j :: 0 <= j < n ==>
            r.db.artists[ids[j]] == db.artists[ids[j]].(image := FirstImageUrl(profiles[j].images.value).value))
      && (r.ok ==> forall j, g :: 0 <= j < n && g in profiles[j].genres.value ==>
            g in r.db.genres && (ids[j], g) in r.db.artistGenres)
      && (forall a :: a in db.artists ==> r.db.artists[a].name == db.artists[a].name)
      && (forall a :: a in db.artists && a !in ids[..n] ==> r.db.artists[a] == db.artists[a])
  {
    PhaseCompletes(db, ids, profiles);
    PhaseKeepsOthers(db, ids, profiles);
    PhaseSetsImages(db, ids, profiles);
    PhaseAddsGenres(db, ids, profiles);
  }

  // ---------------------------------------------------------------------------
  // What an import adds: the rows of the entries, and nothing more.
  // ---------------------------------------------------------------------------

  /** The keys of the album, artist, track and album-track tables. */
  datatype RowKeys = RowKeys(albums: set<string>, artists: set<string>, tracks: set<string>,
                             albumTracks: set<(string, string)>)

  function KeysOf(db: Db): RowKeys
  {
    RowKeys(db.albums.Keys, db.artists.Keys, db.tracks.Keys, db.albumTracks.Keys)
  }

  function Union(a: RowKeys, b: RowKeys): RowKeys
  {
    RowKeys(a.albums + b.albums, a.artists + b.artists, a.tracks + b.tracks, a.albumTracks + b.albumTracks)
  }

  /** The rows one complete entry asks for. */
  function EntryRows(e: AlbumEntry): RowKeys
    requires EntryKeys(e)
  {
    var d := e.album.value;
    var tracks := TrackIds(d.tracks.value.items.value);
    RowKeys({d.id.value}, RefIds(d.artists.value), tracks, PairsWith(d.id.value, tracks))
  }

  /** The rows a list of complete entries asks for. */
  function EntriesRows(entries: seq<AlbumEntry>): RowKeys
    requires forall e :: e in entries ==> EntryKeys(e)
    decreases |entries|
  {
    if entries == [] then RowKeys({}, {}, {}, {})
    else Union(EntryRows(entries[0]), EntriesRows(entries[1..]))
  }

  lemma UnionAssoc(a: RowKeys, b: RowKeys, c: RowKeys)
    ensures Union(Union(a, b), c) == Union(a, Union(b, c))
  {
  }

  lemma UnionTwice(a: RowKeys, b: RowKeys)
    ensures Union(Union(a, b), b) == Union(a, b)
  {
  }

  lemma PairsWithAdd(owner: string, x: string, ids: set<string>)
    ensures PairsWith(owner, {x} + ids) == {(owner, x)} + PairsWith(owner, ids)
  {
  }

  /** A completed artists loop adds exactly the listed artists and their links to the album. */
  lemma {:induction false} ArtistLinksRows(db: Db, albumId: string, refs: seq<ArtistRef>)
    ensures var r := AfterArtistLinks(db, albumId, refs);
      r.ok ==> r.db.artists.Keys == db.artists.Keys + RefIds(refs)
               && r.db.albumArtists == db.albumArtists + PairsWith(albumId, RefIds(refs))
    decreases |refs|
  {
    if refs != [] && ArtistRefKeys(refs[0]) {
      var ref := refs[0];
      var db1 := LinkArtist(InsertArtist(db, ref.id.value, Artist(ref.name.value, None)), albumId, ref.id.value);
      ArtistLinksRows(db1, albumId, refs[1..]);
      PairsWithAdd(albumId, ref.id.value, RefIds(refs[1..]));
    }
  }

  /** A completed tracks loop adds exactly the listed tracks and their album-track rows. */
  lemma {:induction false} TracksRows(db: Db, albumId: string, items: seq<TrackData>)
    ensures var r := AfterTracks(db, albumId, items);
      r.ok ==> r.db.tracks.Keys == db.tracks.Keys + TrackIds(items)
               && r.db.albumTracks.Keys == db.albumTracks.Keys + PairsWith(albumId, TrackIds(items))
    decreases |items|
  {
    if items != [] {
      var t := items[0];
      var s := TrackStep(db, albumId, t);
      if s.ok {
        var rest := TrackIds(items[1..]);
        TrackStepRows(db, albumId, t);
        assert AfterTracks(db, albumId, items) == AfterTracks(s.db, albumId, items[1..]);
        assert TrackIds(items) == {t.id.value} + rest;
        TracksRows(s.db, albumId, items[1..]);
        PairsWithAdd(albumId, t.id.value, rest);
      }
    }
  }

  /** Item `k` is the first of `items` that names its track id. */
  predicate FirstTrackWithId(items: seq<TrackData>, k: int)
  {
    0 <= k < |items| && items[k].id.Some? && forall j :: 0 <= j < k ==> items[j].id != items[k].id
  }

  /**
   * A track the tracks loop creates takes its title and duration from the
   * first listed item with that spotify_id: later items with the same id only
   * find it (`get_or_create`), so the title and duration are fixed at creation.
   */
  lemma {:induction false} TracksNewValues(db: Db, albumId: string, items: seq<TrackData>)
    ensures var r := AfterTracks(db, albumId, items).db;
      forall k :: FirstTrackWithId(items, k) && items[k].id.value in r.tracks && items[k].id.value !in db.tracks ==>
        items[k].name.Some? && items[k].durationMs.Some?
        && r.tracks[items[k].id.value] == Track(items[k].name.value, items[k].durationMs.value)
    decreases |items|
  {
    if items != [] {
      var t := items[0];
      var s := TrackStep(db, albumId, t);
      var r := AfterTracks(db, albumId, items).db;
      if t.id.Some? {
        TrackStepNew(db, albumId, t);
      }
      if s.ok {
        assert r == AfterTracks(s.db, albumId, items[1..]).db;
        TracksNewValues(s.db, albumId, items[1..]);
        assert forall x :: x in s.db.tracks ==> x in r.tracks && r.tracks[x] == s.db.tracks[x] by {
          TracksFrame(s.db, albumId, items[1..]);
        }
      } else {
        assert r == s.db;
      }
      forall k | FirstTrackWithId(items, k) && items[k].id.value in r.tracks && items[k].id.value !in db.tracks
        ensures items[k].name.Some? && items[k].durationMs.Some?
          && r.tracks[items[k].id.value] == Track(items[k].name.value, items[k].durationMs.value)
      {
        if k > 0 {
          assert FirstTrackWithId(items[1..], k - 1) && items[1..][k - 1] == items[k];
        }
      }
    }
  }

  /**
   * An album-track row the tracks loop creates takes its track and disc numbers
   * from the first listed item with that track id.
   */
  lemma {:induction false} TracksNewPlacements(db: Db, albumId: string, items: seq<TrackData>)
    ensures var r := AfterTracks(db, albumId, items).db;
      forall k :: FirstTrackWithId(items, k) && (albumId, items[k].id.value) in r.albumTracks
                  && (albumId, items[k].id.value) !in db.albumTracks ==>
        items[k].trackNumber.Some? && items[k].discNumber.Some?
        && r.albumTracks[(albumId, items[k].id.value)] == Placement(items[k].trackNumber.value, items[k].discNumber.value)
    decreases |items|
  {
    if items != [] {
      var t := items[0];
      var s := TrackStep(db, albumId, t);
      var r := AfterTracks(db, albumId, items).db;
      if t.id.Some? {
        TrackStepNew(db, albumId, t);
      }
      if s.ok {
        assert r == AfterTracks(s.db, albumId, items[1..]).db;
        TracksNewPlacements(s.db, albumId, items[1..]);
        assert forall x :: x in s.db.albumTracks ==> x in r.albumTracks && r.albumTracks[x] == s.db.albumTracks[x] by {
          TracksFrame(s.db, albumId, items[1..]);
        }
      } else {
        assert r == s.db;
      }
      forall k | FirstTrackWithId(items, k) && (albumId, items[k].id.value) in r.albumTracks
                 && (albumId, items[k].id.value) !in db.albumTracks
        ensures items[k].trackNumber.Some? && items[k].discNumber.Some?
          && r.albumTracks[(albumId, items[k].id.value)] == Placement(items[k].trackNumber.value, items[k].discNumber.value)
      {
        if k > 0 {
          assert FirstTrackWithId(items[1..], k - 1) && items[1..][k - 1] == items[k];
        }
      }
    }
  }

  /**
   * After a completed tracks loop, every listed track has its row and its
   * album-track row; those that were new carry the values of the first item
   * with their id (with distinct ids, simply each item's own values).
   */
  lemma CompletedTracksValues(db: Db, albumId: string, items: seq<TrackData>)
    ensures var r := AfterTracks(db, albumId, items);
      r.ok ==> forall k :: FirstTrackWithId(items, k) ==>
        var id := items[k].id.value;
        TrackKeys(items[k]) && id in r.db.tracks && (albumId, id) in r.db.albumTracks
        && (id !in db.tracks ==> r.db.tracks[id] == Track(items[k].name.value, items[k].durationMs.value))
        && ((albumId, id) !in db.albumTracks ==>
              r.db.albumTracks[(albumId, id)] == Placement(items[k].trackNumber.value, items[k].discNumber.value))
  {
    var r := AfterTracks(db, albumId, items);
    if r.ok {
      TracksRows(db, albumId, items);
      TrackIdsHas(items);
      TracksNewValues(db, albumId, items);
      TracksNewPlacements(db, albumId, items);
      forall k | FirstTrackWithId(items, k) ensures TrackKeys(items[k]) && items[k].id.value in TrackIds(items) {
        assert items[k] in items;
      }
    }
  }

  /** One pass of the tracks loop adds at most its own track and album-track row, each from the item's own values. */
  lemma TrackStepNew(db: Db, albumId: string, t: TrackData)
    requires t.id.Some?
    ensures var r := TrackStep(db, albumId, t);
      var id := t.id.value;
      r.db.tracks.Keys <= db.tracks.Keys + {id}
      && r.db.albumTracks.Keys <= db.albumTracks.Keys + {(albumId, id)}
      && (r.ok ==> id in r.db.tracks && (albumId, id) in r.db.albumTracks)
      && (id in r.db.tracks && id !in db.tracks ==>
            t.name.Some? && t.durationMs.Some? && r.db.tracks[id] == Track(t.name.value, t.durationMs.value))
      && ((albumId, id) in r.db.albumTracks && (albumId, id) !in db.albumTracks ==>
            t.trackNumber.Some? && t.discNumber.Some?
            && r.db.albumTracks[(albumId, id)] == Placement(t.trackNumber.value, t.discNumber.value))
  {
  }

  /** Ref `k` is the first of `refs` that names its artist id. */
  predicate FirstRefWithId(refs: seq<ArtistRef>, k: int)
  {
    0 <= k < |refs| && refs[k].id.Some? && forall j :: 0 <= j < k ==> refs[j].id != refs[k].id
  }

  /** An artist the artists loop creates takes its name from the first listed artist with that spotify_id, and has no image yet. */
  lemma {:induction false} ArtistLinksNewNames(db: Db, albumId: string, refs: seq<ArtistRef>)
    ensures var r := AfterArtistLinks(db, albumId, refs).db;
      forall k :: FirstRefWithId(refs, k) && refs[k].id.value in r.artists && refs[k].id.value !in db.artists ==>
        refs[k].name.Some? && r.artists[refs[k].id.value] == Artist(refs[k].name.value, None)
    decreases |refs|
  {
    if refs != [] {
      var ref := refs[0];
      var r := AfterArtistLinks(db, albumId, refs).db;
      if ArtistRefKeys(ref) {
        var db1 := LinkArtist(InsertArtist(db, ref.id.value, Artist(ref.name.value, None)), albumId, ref.id.value);
        assert AfterArtistLinks(db, albumId, refs) == AfterArtistLinks(db1, albumId, refs[1..]);
        ArtistLinksNewNames(db1, albumId, refs[1..]);
        ArtistLinksFrame(db1, albumId, refs[1..]);
        forall k | FirstRefWithId(refs, k) && refs[k].id.value in r.artists && refs[k].id.value !in db.artists
          ensures refs[k].name.Some? && r.artists[refs[k].id.value] == Artist(refs[k].name.value, None)
        {
          if k > 0 {
            assert refs[k].id != ref.id;
            assert FirstRefWithId(refs[1..], k - 1) && refs[1..][k - 1] == refs[k];
          }
        }
      }
    }
  }

  /**
   * After a completed artists loop, every listed artist exists; one that was
   * new carries the name of the first listed artist with its id and no image.
   */
  lemma CompletedArtistsNames(db: Db, albumId: string, refs: seq<ArtistRef>)
    ensures var r := AfterArtistLinks(db, albumId, refs);
      r.ok ==> forall k :: FirstRefWithId(refs, k) ==>
        var id := refs[k].id.value;
        ArtistRefKeys(refs[k]) && id in r.db.artists
        && (id !in db.artists ==> r.db.artists[id] == Artist(refs[k].name.value, None))
  {
    var r := AfterArtistLinks(db, albumId, refs);
    if r.ok {
      ArtistLinksRows(db, albumId, refs);
      RefIdsHas(refs);
      ArtistLinksNewNames(db, albumId, refs);
      forall k | FirstRefWithId(refs, k) ensures ArtistRefKeys(refs[k]) && refs[k].id.value in RefIds(refs) {
        assert refs[k] in refs;
      }
    }
  }

  /** A complete entry adds exactly its own rows. */
  lemma EntryAddsRows(db: Db, entry: AlbumEntry, parse: string -> Timestamp)
    requires EntryKeys(entry)
    ensures KeysOf(AfterEntry(db, entry, parse).db) == Union(KeysOf(db), EntryRows(entry))
  {
    var d := entry.album.value;
    var id := d.id.value;
    var db1 := PutAlbum(db, id, AlbumRow(entry, parse).1);
    ArtistLinksRows(db1, id, d.artists.value);
    ArtistLinksFrame(db1, id, d.artists.value);
    var db2 := AfterArtistLinks(db1, id, d.artists.value).db;
    TracksRows(db2, id, d.tracks.value.items.value);
    TracksFrame(db2, id, d.tracks.value.items.value);
    assert AfterEntry(db, entry, parse) == AfterTracks(db2, id, d.tracks.value.items.value);
    assert db1.albums.Keys == db.albums.Keys + {id} && db1.(albums := db.albums) == db;
  }

  /** A loop over complete entries adds exactly their rows. */
  lemma {:induction false} EntriesAddRows(db: Db, entries: seq<AlbumEntry>, parse: string -> Timestamp)
    requires forall e :: e in entries ==> EntryKeys(e)
    ensures KeysOf(AfterEntries(db, entries, parse).db) == Union(KeysOf(db), EntriesRows(entries))
    decreases |entries|
  {
    if entries != [] {
      assert entries[0] in entries;
      var r0 := AfterEntry(db, entries[0], parse);
      EntryAddsRows(db, entries[0], parse);
      assert forall e :: e in entries[1..] ==> e in entries;
      EntriesAddRows(r0.db, entries[1..], parse);
      assert AfterEntries(db, entries, parse) == AfterEntries(r0.db, entries[1..], parse);
      UnionAssoc(KeysOf(db), EntryRows(entries[0]), EntriesRows(entries[1..]));
    }
  }

  // What any run adds, complete or cut short by a missing key. None of it
  // depends on the tables the run starts from: whether a step completes
  // depends only on the entry it reads.

  /** The artist ids the artists loop creates or finds, up to the first ref missing a key. */
  function RefsAdded(refs: seq<ArtistRef>): set<string>
    decreases |refs|
  {
    if refs == [] || !ArtistRefKeys(refs[0]) then {} else {refs[0].id.value} + RefsAdded(refs[1..])
  }

  /** The track ids the tracks loop gets or creates: a track row is written before its numbers are read. */
  function TrackIdsAdded(items: seq<TrackData>): set<string>
    decreases |items|
  {
    if items == [] then {}
    else
      var t := items[0];
      if t.id.None? || t.name.None? || t.durationMs.None? then {}
      else if t.trackNumber.None? || t.discNumber.None? then {t.id.value}
      else {t.id.value} + TrackIdsAdded(items[1..])
  }

  /** The track ids that get an album-track row, up to the first item missing a key. */
  function PlacedIdsAdded(items: seq<TrackData>): set<string>
    decreases |items|
  {
    if items == [] || !TrackKeys(items[0]) then {} else {items[0].id.value} + PlacedIdsAdded(items[1..])
  }

  function NoRows(): RowKeys
  {
    RowKeys({}, {}, {}, {})
  }

  /** The row keys one entry gets or creates, complete or not. */
  function EntryAdded(e: AlbumEntry): RowKeys
  {
    if !AlbumKeys(e) then NoRows()
    else
      var d := e.album.value;
      var id := d.id.value;
      if d.artists.None? then RowKeys({id}, {}, {}, {})
      else
        var artists := RefsAdded(d.artists.value);
        if !(forall ref :: ref in d.artists.value ==> ArtistRefKeys(ref))
           || d.tracks.None? || d.tracks.value.items.None?
        then RowKeys({id}, artists, {}, {})
        else
          var items := d.tracks.value.items.value;
          RowKeys({id}, artists, TrackIdsAdded(items), PairsWith(id, PlacedIdsAdded(items)))
  }

  /** The row keys the albums loop gets or creates, up to and including the entry that stops it. */
  function EntriesAdded(entries: seq<AlbumEntry>): RowKeys
    decreases |entries|
  {
    if entries == [] then NoRows()
    else if !EntryKeys(entries[0]) then EntryAdded(entries[0])
    else Union(EntryAdded(entries[0]), EntriesAdded(entries[1..]))
  }

  /** The artists loop, complete or not, adds exactly the artists of the refs it reaches. */
  lemma {:induction false} ArtistLinksKeys(db: Db, albumId: string, refs: seq<ArtistRef>)
    ensures AfterArtistLinks(db, albumId, refs).db.artists.Keys == db.artists.Keys + RefsAdded(refs)
    decreases |refs|
  {
    if refs != [] && ArtistRefKeys(refs[0]) {
      var ref := refs[0];
      var db1 := LinkArtist(InsertArtist(db, ref.id.value, Artist(ref.name.value, None)), albumId, ref.id.value);
      assert AfterArtistLinks(db, albumId, refs) == AfterArtistLinks(db1, albumId, refs[1..]);
      ArtistLinksKeys(db1, albumId, refs[1..]);
    }
  }

  lemma ArtistLinksRowKeys(db: Db, albumId: string, refs: seq<ArtistRef>)
    ensures KeysOf(AfterArtistLinks(db, albumId, refs).db) == Union(KeysOf(db), RowKeys({}, RefsAdded(refs), {}, {}))
  {
    ArtistLinksKeys(db, albumId, refs);
    ArtistLinksFrame(db, albumId, refs);
  }

  /** One pass of the tracks loop writes a track row once the id, name and duration are read. */
  lemma TrackStepTrackKeys(db: Db, albumId: string, t: TrackData)
    ensures TrackStep(db, albumId, t).db.tracks.Keys
      == db.tracks.Keys + (if t.id.None? || t.name.None? || t.durationMs.None? then {} else {t.id.value})
  {
  }

  /** One pass of the tracks loop writes an album-track row only when every key is present. */
  lemma TrackStepPairKeys(db: Db, albumId: string, t: TrackData)
    ensures TrackStep(db, albumId, t).db.albumTracks.Keys
      == db.albumTracks.Keys + (if TrackKeys(t) then {(albumId, t.id.value)} else {})
  {
  }

  /** The tracks loop, complete or not, adds exactly the tracks of the items it reaches. */
  lemma {:induction false} TracksTrackKeys(db: Db, albumId: string, items: seq<TrackData>)
    ensures AfterTracks(db, albumId, items).db.tracks.Keys == db.tracks.Keys + TrackIdsAdded(items)
    decreases |items|
  {
    if items != [] {
      var t := items[0];
      var s := TrackStep(db, albumId, t);
      TrackStepTrackKeys(db, albumId, t);
      if s.ok {
        var rest := items[1..];
        assert AfterTracks(db, albumId, items) == AfterTracks(s.db, albumId, rest);
        TracksTrackKeys(s.db, albumId, rest);
        assert TrackIdsAdded(items) == {t.id.value} + TrackIdsAdded(rest);
      } else {
        assert AfterTracks(db, albumId, items) == s;
      }
    }
  }

  /** The tracks loop, complete or not, adds exactly the album-track rows of the items it reaches. */
  lemma {:induction false} TracksPairKeys(db: Db, albumId: string, items: seq<TrackData>)
    ensures AfterTracks(db, albumId, items).db.albumTracks.Keys
      == db.albumTracks.Keys + PairsWith(albumId, PlacedIdsAdded(items))
    decreases |items|
  {
    if items != [] {
      var t := items[0];
      var s := TrackStep(db, albumId, t);
      TrackStepPairKeys(db, albumId, t);
      if s.ok {
        var rest := items[1..];
        assert AfterTracks(db, albumId, items) == AfterTracks(s.db, albumId, rest);
        TracksPairKeys(s.db, albumId, rest);
        assert PlacedIdsAdded(items) == {t.id.value} + PlacedIdsAdded(rest);
        PairsWithAdd(albumId, t.id.value, PlacedIdsAdded(rest));
      } else {
        assert AfterTracks(db, albumId, items) == s;
        assert PlacedIdsAdded(items) == {};
      }
    }
  }

  lemma TracksRowKeys(db: Db, albumId: string, items: seq<TrackData>)
    ensures KeysOf(AfterTracks(db, albumId, items).db)
      == Union(KeysOf(db), RowKeys({}, {}, TrackIdsAdded(items), PairsWith(albumId, PlacedIdsAdded(items))))
  {
    TracksTrackKeys(db, albumId, items);
    TracksPairKeys(db, albumId, items);
    TracksFrame(db, albumId, items);
  }

  lemma UnionOfParts(k: RowKeys, id: string, artists: set<string>, tracks: set<string>, pairs: set<(string, string)>)
    ensures Union(k, NoRows()) == k
    ensures Union(Union(k, RowKeys({id}, {}, {}, {})), RowKeys({}, artists, {}, {})) == Union(k, RowKeys({id}, artists, {}, {}))
    ensures Union(Union(Union(k, RowKeys({id}, {}, {}, {})), RowKeys({}, artists, {}, {})), RowKeys({}, {}, tracks, pairs))
      == Union(k, RowKeys({id}, artists, tracks, pairs))
  {
  }

  /** One entry, complete or not, adds the keys `EntryAdded` names, whatever the tables held. */
  lemma EntryKeysAdded(db: Db, entry: AlbumEntry, parse: string -> Timestamp)
    ensures KeysOf(AfterEntry(db, entry, parse).db) == Union(KeysOf(db), EntryAdded(entry))
  {
    var k := KeysOf(db);
    if !AlbumKeys(entry) {
      assert AfterEntry(db, entry, parse).db == db && EntryAdded(entry) == NoRows();
      UnionOfParts(k, "", {}, {}, {});
    } else if entry.album.value.artists.None? {
      var id := entry.album.value.id.value;
      assert AfterEntry(db, entry, parse).db == PutAlbum(db, id, AlbumRow(entry, parse).1);
      assert EntryAdded(entry) == RowKeys({id}, {}, {}, {});
    } else {
      EntryLinksKeysAdded(db, entry, parse);
    }
  }

  /** An entry whose album lists its artists adds its album, the artists reached and, past them, its tracks. */
  lemma EntryLinksKeysAdded(db: Db, entry: AlbumEntry, parse: string -> Timestamp)
    requires AlbumKeys(entry) && entry.album.value.artists.Some?
    ensures KeysOf(AfterEntry(db, entry, parse).db) == Union(KeysOf(db), EntryAdded(entry))
  {
    var k := KeysOf(db);
    var d := entry.album.value;
    var id := d.id.value;
    var db1 := PutAlbum(db, id, AlbumRow(entry, parse).1);
    var refs := d.artists.value;
    var arts := RefsAdded(refs);
    var r := AfterArtistLinks(db1, id, refs);
    assert KeysOf(db1) == Union(k, RowKeys({id}, {}, {}, {}));
    assert KeysOf(r.db) == Union(KeysOf(db1), RowKeys({}, arts, {}, {})) by { ArtistLinksRowKeys(db1, id, refs); }
    if r.ok && d.tracks.Some? && d.tracks.value.items.Some? {
      var items := d.tracks.value.items.value;
      var tracks, pairs := TrackIdsAdded(items), PairsWith(id, PlacedIdsAdded(items));
      var r2 := AfterTracks(r.db, id, items).db;
      assert AfterEntry(db, entry, parse).db == r2;
      assert EntryAdded(entry) == RowKeys({id}, arts, tracks, pairs);
      assert KeysOf(r2) == Union(k, RowKeys({id}, arts, tracks, pairs)) by {
        TracksRowKeys(r.db, id, items);
        UnionOfParts(k, id, arts, tracks, pairs);
      }
    } else {
      assert AfterEntry(db, entry, parse).db == r.db;
      assert EntryAdded(entry) == RowKeys({id}, arts, {}, {});
      assert KeysOf(r.db) == Union(k, RowKeys({id}, arts, {}, {})) by {
        UnionOfParts(k, id, arts, {}, {});
      }
    }
  }

  /** The albums loop, complete or not, adds the keys `EntriesAdded` names, whatever the tables held. */
  lemma {:induction false} EntriesKeysAdded(db: Db, entries: seq<AlbumEntry>, parse: string -> Timestamp)
    ensures KeysOf(AfterEntries(db, entries, parse).db) == Union(KeysOf(db), EntriesAdded(entries))
    decreases |entries|
  {
    if entries != [] {
      var r0 := AfterEntry(db, entries[0], parse);
      EntryKeysAdded(db, entries[0], parse);
      if r0.ok {
        assert AfterEntries(db, entries, parse) == AfterEntries(r0.db, entries[1..], parse);
        EntriesKeysAdded(r0.db, entries[1..], parse);
        UnionAssoc(KeysOf(db), EntryAdded(entries[0]), EntriesAdded(entries[1..]));
      }
    }
  }

  /** The artists phase adds no album, artist, track or album-track row. */
  lemma ImportKeysAreEntriesKeys(db: Db, entries: seq<AlbumEntry>, lookup: seq<string> -> seq<ArtistProfile>,
                                 parse: string -> Timestamp)
    ensures KeysOf(AfterImport(db, entries, lookup, parse).db) == KeysOf(AfterEntries(db, entries, parse).db)
  {
  }

  /**
   * Importing the same saved albums again adds no album, artist, track or
   * album-track row, whether the first import ran to completion or stopped
   * at a missing key, and whatever the artist lookup answers either time.
   */
  lemma ImportTwiceAddsNoRows(db: Db, entries: seq<AlbumEntry>, lookup1: seq<string> -> seq<ArtistProfile>,
                              lookup2: seq<string> -> seq<ArtistProfile>, parse: string -> Timestamp)
    ensures var db1 := AfterImport(db, entries, lookup1, parse).db;
      var db2 := AfterImport(db1, entries, lookup2, parse).db;
      KeysOf(db2) == KeysOf(db1)
      && |db2.albums| == |db1.albums| && |db2.artists| == |db1.artists|
      && |db2.tracks| == |db1.tracks| && |db2.albumTracks| == |db1.albumTracks|
  {
    var rows := EntriesAdded(entries);
    var db1 := AfterImport(db, entries, lookup1, parse).db;
    var db2 := AfterImport(db1, entries, lookup2, parse).db;
    assert KeysOf(db1) == Union(KeysOf(db), rows) by {
      ImportKeysAreEntriesKeys(db, entries, lookup1, parse);
      EntriesKeysAdded(db, entries, parse);
    }
    assert KeysOf(db2) == Union(KeysOf(db1), rows) by {
      ImportKeysAreEntriesKeys(db1, entries, lookup2, parse);
      EntriesKeysAdded(db1, entries, parse);
    }
    UnionTwice(KeysOf(db), rows);
    assert db2.albums.Keys == db1.albums.Keys && db2.artists.Keys == db1.artists.Keys;
    assert db2.tracks.Keys == db1.tracks.Keys && db2.albumTracks.Keys == db1.albumTracks.Keys;
  }

  // ---------------------------------------------------------------------------
  // The import keeps the tables consistent.
  // ---------------------------------------------------------------------------

  lemma InsertArtistValid(db: Db, id: string, a: Artist)
    requires Valid(db)
    ensures Valid(InsertArtist(db, id, a))
  {
    if id !in db.artists {
      var o := db.artistOrder + [id];
      assert forall i :: 0 <= i < |db.artistOrder| ==> o[i] == db.artistOrder[i];
    }
  }

  lemma {:induction false} ArtistLinksValid(db: Db, albumId: string, refs: seq<ArtistRef>)
    requires Valid(db) && albumId in db.albums
    ensures Valid(AfterArtistLinks(db, albumId, refs).db)
    decreases |refs|
  {
    if refs != [] && ArtistRefKeys(refs[0]) {
      var ref := refs[0];
      InsertArtistValid(db, ref.id.value, Artist(ref.name.value, None));
      var db1 := LinkArtist(InsertArtist(db, ref.id.value, Artist(ref.name.value, None)), albumId, ref.id.value);
      ArtistLinksValid(db1, albumId, refs[1..]);
    }
  }

  lemma {:induction false} TracksValid(db: Db, albumId: string, items: seq<TrackData>)
    requires Valid(db) && albumId in db.albums
    ensures Valid(AfterTracks(db, albumId, items).db)
    decreases |items|
  {
    if items != [] {
      var s := TrackStep(db, albumId, items[0]);
      TrackStepValid(db, albumId, items[0]);
      if s.ok {
        assert AfterTracks(db, albumId, items) == AfterTracks(s.db, albumId, items[1..]);
        TracksValid(s.db, albumId, items[1..]);
      }
    }
  }

  lemma PutAlbumValid(db: Db, id: string, row: Album)
    requires Valid(db)
    ensures Valid(PutAlbum(db, id, row)) && id in PutAlbum(db, id, row).albums
  {
    var r := PutAlbum(db, id, row);
    assert r.albums.Keys == db.albums.Keys + {id};
    assert r.(albums := db.albums) == db;
  }

  lemma EntryValid(db: Db, entry: AlbumEntry, parse: string -> Timestamp)
    requires Valid(db)
    ensures Valid(AfterEntry(db, entry, parse).db)
  {
    if AlbumKeys(entry) {
      var d := entry.album.value;
      var id := d.id.value;
      var db1 := PutAlbum(db, id, AlbumRow(entry, parse).1);
      PutAlbumValid(db, id, AlbumRow(entry, parse).1);
      if d.artists.Some? {
        ArtistLinksValid(db1, id, d.artists.value);
        var r := AfterArtistLinks(db1, id, d.artists.value);
        if r.ok && d.tracks.Some? && d.tracks.value.items.Some? {
          assert id in r.db.albums;
          TracksValid(r.db, id, d.tracks.value.items.value);
          assert AfterEntry(db, entry, parse) == AfterTracks(r.db, id, d.tracks.value.items.value);
        } else {
          assert AfterEntry(db, entry, parse).db == r.db;
        }
      } else {
        assert AfterEntry(db, entry, parse).db == db1;
      }
    }
  }

  lemma {:induction false} EntriesValid(db: Db, entries: seq<AlbumEntry>, parse: string -> Timestamp)
    requires Valid(db)
    ensures Valid(AfterEntries(db, entries, parse).db)
    decreases |entries|
  {
    if entries != [] {
      EntryValid(db, entries[0], parse);
      EntriesValid(AfterEntry(db, entries[0], parse).db, entries[1..], parse);
    }
  }

  lemma AfterGenresValid(db: Db, id: string, names: seq<string>)
    requires Valid(db) && id in db.artists
    ensures Valid(AfterGenres(db, id, names))
  {
  }

  lemma {:induction false} ArtistsPhaseValid(db: Db, ids: seq<string>, profiles: seq<ArtistProfile>)
    requires Valid(db)
    ensures Valid(AfterArtistsPhase(db, ids, profiles).db)
    decreases |ids|
  {
    if ids != [] && profiles != [] {
      var r0 := AfterProfile(db, ids[0], profiles[0]);
      if ids[0] in db.artists && ProfileKeys(profiles[0]) {
        var p := profiles[0];
        var db1 := StoreArtist(db, ids[0], db.artists[ids[0]].(image := FirstImageUrl(p.images.value).value));
        AfterGenresValid(db1, ids[0], p.genres.value);
      }
      assert Valid(r0.db);
      if r0.ok {
        ArtistsPhaseValid(r0.db, ids[1..], profiles[1..]);
      }
    }
  }

  /** Whether it completes or not, an import leaves consistent tables consistent. */
  lemma ImportValid(db: Db, entries: seq<AlbumEntry>, lookup: seq<string> -> seq<ArtistProfile>,
                    parse: string -> Timestamp)
    requires Valid(db)
    ensures Valid(AfterImport(db, entries, lookup, parse).db)
  {
    EntriesValid(db, entries, parse);
    var r := AfterEntries(db, entries, parse);
    if r.ok {
      ArtistsPhaseValid(r.db, r.db.artistOrder, ArtistsFetched(lookup, r.db.artistOrder, PageSize));
    }
  }

  /** In consistent tables, the Artist table's order lists every stored artist once. */
  lemma ValidStoredIds(db: Db)
    requires Valid(db)
    ensures StoredIds(db, db.artistOrder)
    ensures forall a :: a in db.artists ==> a in db.artistOrder
  {
  }

  /** When the i-th profile is the i-th artist's own, a completed phase gives each listed artist its own profile. */
  lemma PhaseGivesOwnProfiles(db: Db, ids: seq<string>, profiles: seq<ArtistProfile>, profileOf: string -> ArtistProfile)
    requires StoredIds(db, ids)
    requires |profiles| == |ids| && forall j :: 0 <= j < |ids| ==> profiles[j] == profileOf(ids[j])
    requires AfterArtistsPhase(db, ids, profiles).ok
    ensures var r := AfterArtistsPhase(db, ids, profiles).db;
      forall a :: a in ids ==>
        ProfileKeys(profileOf(a))
        && r.artists[a] == db.artists[a].(image := FirstImageUrl(profileOf(a).images.value).value)
        && (forall g :: g in profileOf(a).genres.value ==> (a, g) in r.artistGenres)
  {
    var r := AfterArtistsPhase(db, ids, profiles).db;
    PhaseSetsImages(db, ids, profiles);
    PhaseAddsGenres(db, ids, profiles);
    assert Min(|ids|, |profiles|) == |ids|;
    forall a | a in ids
      ensures ProfileKeys(profileOf(a))
      ensures r.artists[a] == db.artists[a].(image := FirstImageUrl(profileOf(a).images.value).value)
      ensures forall g :: g in profileOf(a).genres.value ==> (a, g) in r.artistGenres
    {
      var j :| 0 <= j < |ids| && ids[j] == a;
      var p := profiles[j];
      assert p == profileOf(a);
      assert ProfileKeys(p);
      assert r.artists[ids[j]] == db.artists[ids[j]].(image := FirstImageUrl(p.images.value).value);
      assert forall g :: g in p.genres.value ==> (ids[j], g) in r.artistGenres;
    }
  }

  /**
   * Against an artist lookup that answers each chunk with one profile per id,
   * in order, a completed import gives every stored artist the first image
   * and the genres of its own profile.
   */
  lemma ImportUpdatesEveryArtist(db: Db, entries: seq<AlbumEntry>, lookup: seq<string> -> seq<ArtistProfile>,
                                 profileOf: string -> ArtistProfile, parse: string -> Timestamp)
    requires Valid(db)
    requires forall c :: PerId(lookup(c), c, profileOf)
    requires AfterImport(db, entries, lookup, parse).ok
    ensures var stored := AfterEntries(db, entries, parse).db;
      var r := AfterImport(db, entries, lookup, parse).db;
      forall a :: a in stored.artists ==>
        ProfileKeys(profileOf(a))
        && r.artists[a] == stored.artists[a].(image := FirstImageUrl(profileOf(a).images.value).value)
        && (forall g :: g in profileOf(a).genres.value ==> (a, g) in r.artistGenres)
  {
    var stored := AfterEntries(db, entries, parse);
    var ids := stored.db.artistOrder;
    EntriesValid(db, entries, parse);
    var profiles := ArtistsFetched(lookup, ids, PageSize);
    ArtistsFetchedPerId(lookup, profileOf, ids, PageSize);
    assert AfterImport(db, entries, lookup, parse) == AfterArtistsPhase(stored.db, ids, profiles);
    ValidStoredIds(stored.db);
    PhaseGivesOwnProfiles(stored.db, ids, profiles, profileOf);
  }

  // ---------------------------------------------------------------------------
  // The import, as the source runs it: ORM calls on the store, in loops.
  // ---------------------------------------------------------------------------

  /** The loop over an album's artists (import_logic.py:35-42). */
  method LinkArtists(store: Store, albumId: string, refs: seq<ArtistRef>) returns (ok: bool)
    modifies store
    ensures Outcome(store.Snapshot(), ok) == AfterArtistLinks(old(store.Snapshot()), albumId, refs)
  {
    ghost var db0 := store.Snapshot();
    var i := 0;
    while i < |refs|
      invariant 0 <= i <= |refs|
      invariant AfterArtistLinks(db0, albumId, refs) == AfterArtistLinks(store.Snapshot(), albumId, refs[i..])
    {
      var ref := refs[i];
      assert refs[i..][0] == ref && refs[i..][1..] == refs[i + 1..];
      if ref.id.None? || ref.name.None? {
        return false;
      }
      store.GetOrCreateArtist(ref.id.value, Artist(ref.name.value, None));
      store.AddAlbumArtist(albumId, ref.id.value);
      i := i + 1;
    }
    return true;
  }

  /** The loop over an album's tracks (import_logic.py:45-61). */
  method ImportTracks(store: Store, albumId: string, items: seq<TrackData>) returns (ok: bool)
    modifies store
    ensures Outcome(store.Snapshot(), ok) == AfterTracks(old(store.Snapshot()), albumId, items)
  {
    ghost var db0 := store.Snapshot();
    var i := 0;
    while i < |items|
      invariant 0 <= i <= |items|
      invariant AfterTracks(db0, albumId, items) == AfterTracks(store.Snapshot(), albumId, items[i..])
    {
      var t := items[i];
      assert items[i..][0] == t && items[i..][1..] == items[i + 1..];
      if t.id.None? || t.name.None? || t.durationMs.None? {
        return false;
      }
      store.GetOrCreateTrack(t.id.value, Track(t.name.value, t.durationMs.value));
      if t.trackNumber.None? || t.discNumber.None? {
        return false;
      }
      store.GetOrCreateAlbumTrack(albumId, t.id.value, Placement(t.trackNumber.value, t.discNumber.value));
      i := i + 1;
    }
    return true;
  }

  /** The body of the loop over saved albums (import_logic.py:13-61). */
  method ImportEntry(store: Store, entry: AlbumEntry, parse: string -> Timestamp) returns (ok: bool)
    modifies store
    ensures Outcome(store.Snapshot(), ok) == AfterEntry(old(store.Snapshot()), entry, parse)
  {
    if entry.album.None? {
      return false;
    }
    var d := entry.album.value;
    if d.id.None? || d.name.None? || d.totalTracks.None? || d.releaseDate.None? || entry.addedAt.None?
       || d.popularity.None? || d.images.None? {
      return false;
    }
    var cover := FirstImageUrl(d.images.value);
    if cover.None? {
      return false;
    }
    var id := d.id.value;
    var defaults := Album(d.name.value, d.totalTracks.value, parse(d.releaseDate.value),
                          parse(entry.addedAt.value), d.popularity.value, cover.value);
    var obj, created := store.GetOrCreateAlbum(id, defaults);
    if !created {
      obj := obj.(addedAt := parse(entry.addedAt.value), popularity := d.popularity.value);
      store.SaveAlbum(id, obj);
    }
    if d.artists.None? {
      return false;
    }
    ghost var linked := store.Snapshot();
    ok := LinkArtists(store, id, d.artists.value);
    if !ok {
      return;
    }
    ArtistLinksFrame(linked, id, d.artists.value);
    // `album_obj.save()` writes back the row as it already is.
    assert store.albums[id := obj] == store.albums;
    store.SaveAlbum(id, obj);
    if d.tracks.None? || d.tracks.value.items.None? {
      return false;
    }
    ok := ImportTracks(store, id, d.tracks.value.items.value);
  }

  /** The loop over a profile's genres (import_logic.py:73-75). */
  method AddGenres(store: Store, artistId: string, names: seq<string>)
    modifies store
    ensures store.Snapshot() == AfterGenres(old(store.Snapshot()), artistId, names)
  {
    ghost var db0 := store.Snapshot();
    for i := 0 to |names|
      invariant AfterGenres(db0, artistId, names) == AfterGenres(store.Snapshot(), artistId, names[i..])
    {
      assert names[i..][0] == names[i] && names[i..][1..] == names[i + 1..];
      store.GetOrCreateGenre(names[i]);
      store.AddArtistGenre(artistId, names[i]);
    }
    assert names[|names|..] == [];
  }

  /** The body of the zip loop over stored ids and fetched profiles (import_logic.py:68-75). */
  method UpdateArtist(store: Store, id: string, profile: ArtistProfile) returns (ok: bool)
    modifies store
    ensures Outcome(store.Snapshot(), ok) == AfterProfile(old(store.Snapshot()), id, profile)
  {
    var obj := store.GetArtist(id);
    if obj.None? || profile.images.None? {
      return false;
    }
    var image := FirstImageUrl(profile.images.value);
    if image.None? {
      return false;
    }
    store.SaveArtist(id, obj.value.(image := image.value));
    if profile.genres.None? {
      return false;
    }
    AddGenres(store, id, profile.genres.value);
    ok := true;
  }

  /** `for sp_id, artist_data in zip(ids, profiles)` (import_logic.py:65-75). */
  method UpdateArtists(store: Store, ids: seq<string>, profiles: seq<ArtistProfile>) returns (ok: bool)
    modifies store
    ensures Outcome(store.Snapshot(), ok) == AfterArtistsPhase(old(store.Snapshot()), ids, profiles)
  {
    ghost var db0 := store.Snapshot();
    var i := 0;
    while i < |ids| && i < |profiles|
      invariant 0 <= i <= |ids| && i <= |profiles|
      invariant AfterArtistsPhase(db0, ids, profiles) == AfterArtistsPhase(store.Snapshot(), ids[i..], profiles[i..])
    {
      assert ids[i..][0] == ids[i] && ids[i..][1..] == ids[i + 1..];
      assert profiles[i..][0] == profiles[i] && profiles[i..][1..] == profiles[i + 1..];
      ok := UpdateArtist(store, ids[i], profiles[i]);
      if !ok {
        return;
      }
      i := i + 1;
    }
    return true;
  }

  /** The loop over saved albums (import_logic.py:12-61), up to the first `KeyError`. */
  method ImportEntries(store: Store, albums: seq<AlbumEntry>, parse: string -> Timestamp) returns (ok: bool)
    modifies store
    ensures Outcome(store.Snapshot(), ok) == AfterEntries(old(store.Snapshot()), albums, parse)
  {
    ghost var db0 := store.Snapshot();
    var i := 0;
    while i < |albums|
      invariant 0 <= i <= |albums|
      invariant AfterEntries(db0, albums, parse) == AfterEntries(store.Snapshot(), albums[i..], parse)
    {
      assert albums[i..][0] == albums[i] && albums[i..][1..] == albums[i + 1..];
      ok := ImportEntry(store, albums[i], parse);
      if !ok {
        return;
      }
      i := i + 1;
    }
    assert albums[|albums|..] == [];
    return true;
  }

  /**
   * `import_from_spotify(importer)`: every saved album (read with the
   * default `max_len`, `offset` and `limit`), then the artist profiles of
   * all stored artists. `bound` names a batch at which the upstream's
   * listing ends.
   */
  method ImportFromSpotify(store: Store, importer: SpotifyImporter, parse: string -> Timestamp, ghost bound: nat)
    returns (ok: bool)
    requires StopsAfter(importer.sp.currentUserSavedAlbums, None, 0, PageSize, bound)
    modifies store
    ensures Outcome(store.Snapshot(), ok)
      == AfterImport(old(store.Snapshot()), Retrieved(importer.sp.currentUserSavedAlbums, None, 0, PageSize, bound),
                     importer.sp.artists, parse)
  {
    var albums, batches := importer.RetrieveAlbums(None, 0, PageSize, bound);
    ok := ImportEntries(store, albums, parse);
    if !ok {
      return;
    }
    var artistIds := store.artistOrder;
    var profiles := importer.RetrieveArtistsById(artistIds, PageSize);
    ok := UpdateArtists(store, artistIds, profiles);
  }
}
