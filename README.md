# Spotify library import and filters — a Dafny model

This project models the core of a Django application that imports a user's
saved Spotify albums into a relational database and lets them filter the
imported artists and albums:

- **`SpotifyImporter`** (`spotify_filter/spotify_import/api.py`): reading
  the saved-album listing page by page (`retrieve_albums`) and looking
  artist profiles up in chunks of ids (`retrieve_artists_by_id`). The
  Spotify client is an oracle: a pair of total functions from a request to
  its response (`Api.Client`), held by the importer as a constant.
- **`import_from_spotify`** (`spotify_filter/spotify_import/import_logic.py`):
  one pass over the saved albums that get-or-creates albums, artists,
  tracks and album-track rows, then one pass that zips the stored artist
  ids with the fetched profiles to set each artist's image and genres. The
  database tables are the map and set fields of a `Models.Store` object;
  its methods are the ORM calls the importer makes. Each importer loop is a
  method over the store, proved to leave exactly the tables given by a
  function (`ImportLogic.After…`) on the previous tables; the properties of
  the import are lemmas about those functions.
- **The genre keyword filter and the `icontains` filters**
  (`spotify_filter/filters.py`, `spotify_filter/tables.py`): splitting the
  filter value into keywords (commas and whitespace separate them), the
  conjunctive match of keywords against genre names, the name and title
  filters, and `ArtistTable.render_genres`.

Files: `wrappers.dfy` (`Option`), `payload.dfy` (the JSON documents the
importer reads; every key it reads is an `Option`, `None` being a missing
key), `api.dfy`, `models.dfy`, `import_logic.dfy`, `text.dfy` (Python's
`str.split()`, `str.strip()`, `str.replace`, substring search and ASCII
lower-casing), `filters.dfy` and `tables.dfy`.

A query set is a sequence of rows. A filter across a to-many relation
(`genres__name__icontains`, `albums__title__icontains`) is a SQL join: an
artist comes out once for every related name that matches, which is why
`.distinct()` matters; `Filters.Distinct` keeps the first occurrence of each
row.

The `CharFilter`s receive the value their form has cleaned. A blank value
(the field left empty, or not sent at all) hands the query set back
untouched, before any lookup or `.distinct()`. `Filters.ArtistFilterSet`
and `Filters.AlbumFilterSet` model a filter set's `.qs`: each submitted value
is stripped, as the form's `CharField` does, and the declared filters run in
turn.

A `KeyError` from a missing key ends the whole import: `ImportLogic.Outcome`
carries the tables as the import left them and `ok == false`. Nothing is
rolled back, so every row written before the missing key stays. Python
evaluates the `defaults` dictionary before `get_or_create` runs, so a key
missing from an album's own fields writes nothing for that album. A track
row is written before its `track_number` and `disc_number` are read. The
model keeps both orders.

The tests (spotify_filter/tests/tests.py:419-499) call a newer signature,
`import_from_spotify(user, importer=...)`, and expect a statistics
dictionary back; the code modelled here takes only the importer and
returns nothing, and the model follows the code.

## Model

| member | source | states |
|---|---|---|
| `Api.SpotifyImporter.RetrieveAlbums` | spotify_filter/spotify_import/api.py:22-41 | Demands `limit > 0`, `max_len > 0` and `offset >= 0`, as the source's asserts do. Returns the items of the pages in request order, up to and including the first batch after which the upstream reports no next page or the count reaches `max_len`; no earlier batch ends the loop |
| `Api.BatchLimit` | spotify_filter/spotify_import/api.py:34 | A requested page size never exceeds `limit`; it is exactly `limit` when `max_len` is unbounded, and at most what is left of `max_len` otherwise |
| `Api.BatchesContiguous` | spotify_filter/spotify_import/api.py:33 | Batch k+1 starts where batch k's window of `limit` items ends, and the windows of two batches never overlap |
| `Api.RequestedTotal` | spotify_filter/spotify_import/api.py:34-37 | With a bounded `max_len`, the positive page sizes of the first n batches add up to `min(max_len, limit * n)`, never more than `max_len` |
| `Api.FirstStop` | spotify_filter/spotify_import/api.py:30-40 | The batch at which the loop stops: it ends the loop, and no batch before it does |
| `Api.StopIsFirst` | spotify_filter/spotify_import/api.py:39-40 | Any batch that ends the loop with none ending it earlier is that first stop, so the result does not depend on the bound named for it |
| `Api.HonestKeepsReading` | spotify_filter/spotify_import/api.py:39-40 | Against an upstream serving a list, a batch that ends before the goal is not a stopping batch |
| `Api.HonestLastPage` | spotify_filter/spotify_import/api.py:34-40 | Against an upstream serving a list, the last batch ends exactly at the goal and either has no next page or fills `max_len` |
| `Api.HonestUpstream` | spotify_filter/spotify_import/api.py:30-41 | Against an upstream serving a list L, the loop stops after batch `HonestStop` and not before, having gathered `L[offset : offset + max_len]` |
| `Api.HonestRetrieved` | spotify_filter/spotify_import/api.py:22-41 | Against an upstream serving a list L, what the loop returns is `L[min(offset, len L) : min(offset + max_len, len L)]` |
| `Api.NumBatches` | spotify_filter/spotify_import/api.py:45 | The number of chunks is `ceil(len(ids) / limit)`: enough chunks of `limit` to hold every id, and one fewer would not; a negative `limit` gives none |
| `Api.ChunkShape` | spotify_filter/spotify_import/api.py:47-49 | Chunk i is `ids[i*limit : min((i+1)*limit, len ids)]`, non-empty and at most `limit` long |
| `Api.ChunksCoverIds` | spotify_filter/spotify_import/api.py:45-49 | The chunks, concatenated in order, give back the id list; an empty list gives no chunk and so no request |
| `Api.ChunkResponsesPerId` | spotify_filter/spotify_import/api.py:47-50 | When each chunk is answered with one profile per id, in order, the responses so far hold one profile per id of the chunks so far |
| `Api.ArtistsFetchedPerId` | spotify_filter/spotify_import/api.py:47-51 | When each chunk is answered with one profile per id, in order, profile j of the result is that of `ids[j]` and there are as many profiles as ids |
| `Api.SpotifyImporter.RetrieveArtistsById` | spotify_filter/spotify_import/api.py:43-51 | Returns the chunk responses concatenated in chunk order; empty `ids` give an empty result |
| `Models.Store.GetOrCreateAlbum` | spotify_filter/spotify_import/import_logic.py:14-28 | Creates the album from the defaults only when its spotify_id is new, reports whether it did, and returns the stored row |
| `Models.Store.SaveAlbum` | spotify_filter/spotify_import/import_logic.py:29-32 | Writes the album object back under its spotify_id; no other table changes |
| `Models.Store.GetOrCreateArtist` | spotify_filter/spotify_import/import_logic.py:36-41 | Creates the artist only when its spotify_id is new, placing it last in the artist table's order |
| `Models.Store.AddAlbumArtist` | spotify_filter/spotify_import/import_logic.py:42 | Adds the album-artist link; adding it again changes nothing |
| `Models.Store.GetOrCreateTrack` | spotify_filter/spotify_import/import_logic.py:46-52 | Creates the track only when its spotify_id is new |
| `Models.Store.GetOrCreateAlbumTrack` | spotify_filter/spotify_import/import_logic.py:54-61 | Creates the album-track row only when the (album, track) pair is new; an existing row keeps its track and disc numbers |
| `Models.Store.GetArtist` | spotify_filter/spotify_import/import_logic.py:68 | Returns the stored artist with that spotify_id, or none (the `DoesNotExist` error) |
| `Models.Store.SaveArtist` | spotify_filter/spotify_import/import_logic.py:69-72 | Writes the artist object back under its spotify_id |
| `Models.Store.GetOrCreateGenre` | spotify_filter/spotify_import/import_logic.py:74 | Adds the genre name if it is new |
| `Models.Store.AddArtistGenre` | spotify_filter/spotify_import/import_logic.py:75 | Adds the artist-genre link; adding it again changes nothing |
| `ImportLogic.AfterArtistLinks` | spotify_filter/spotify_import/import_logic.py:35-42 | The artists loop deletes nothing and runs to completion exactly when every listed artist has an id and a name |
| `ImportLogic.ArtistLinksFrame` | spotify_filter/spotify_import/import_logic.py:35-42 | The artists loop changes no album, track, album-track, genre or artist-genre row and no artist that was already stored |
| `ImportLogic.TrackStep` | spotify_filter/spotify_import/import_logic.py:45-61 | One pass of the tracks loop deletes nothing and completes exactly when the track has all five keys it reads |
| `ImportLogic.AfterTracks` | spotify_filter/spotify_import/import_logic.py:45-61 | The tracks loop deletes nothing and runs to completion exactly when every track has all five keys it reads |
| `ImportLogic.TracksFrame` | spotify_filter/spotify_import/import_logic.py:45-61 | The tracks loop changes no album, artist, album-artist link, genre or artist-genre row, no existing track and no existing album-track row |
| `ImportLogic.AfterEntry` | spotify_filter/spotify_import/import_logic.py:12-61 | One saved-album entry deletes nothing and completes exactly when every key it reads is present |
| `ImportLogic.AfterEntries` | spotify_filter/spotify_import/import_logic.py:12-61 | The albums phase deletes nothing and completes exactly when every entry has every key it reads, whatever the tables held before |
| `ImportLogic.AfterGenres` | spotify_filter/spotify_import/import_logic.py:73-75 | The genres loop adds each genre name to the genre table and links each to the artist, and changes nothing else |
| `ImportLogic.AfterProfile` | spotify_filter/spotify_import/import_logic.py:68-75 | Updating one artist adds no album, artist, track, album-track row or album-artist link and deletes nothing |
| `ImportLogic.AfterArtistsPhase` | spotify_filter/spotify_import/import_logic.py:64-75 | The artists phase adds no album, artist, track, album-track row or album-artist link and deletes nothing |
| `ImportLogic.AfterImport` | spotify_filter/spotify_import/import_logic.py:8-75 | An import, complete or cut short by a missing key, deletes no album, artist, track, genre or link: every row there before is there after |
| `ImportLogic.EntryWithoutAlbumKeys` | spotify_filter/spotify_import/import_logic.py:13-28 | An entry missing a key read before the album's `get_or_create` writes nothing and ends the import |
| `ImportLogic.EntryAlbum` | spotify_filter/spotify_import/import_logic.py:14-32 | After an entry exactly one album has its spotify_id; a new album takes title, track count, release date, `added_at` and popularity from the entry and the first image URL (none for no image) as cover; an existing album only gets the new `added_at` and popularity; other albums are untouched |
| `ImportLogic.EntryFrame` | spotify_filter/spotify_import/import_logic.py:14-61 | After the album's `get_or_create` and save, the rest of an entry leaves the album table as those two left it and changes no existing artist, track or album-track row |
| `ImportLogic.EntryKeepsRows` | spotify_filter/spotify_import/import_logic.py:35-61 | An entry never changes an existing artist (its name included), an existing track or an existing album-track row |
| `ImportLogic.EntryLinksAll` | spotify_filter/spotify_import/import_logic.py:35-61 | After a complete entry every listed artist exists and is linked to the album, and every listed track exists and has its album-track row |
| `ImportLogic.ArtistLinksRows` | spotify_filter/spotify_import/import_logic.py:35-42 | A completed artists loop adds exactly the listed artists and their links to the album |
| `ImportLogic.ArtistLinksNewNames` | spotify_filter/spotify_import/import_logic.py:35-42 | An artist the artists loop creates, complete or not, takes its name from the first listed artist with that spotify_id and has no image |
| `ImportLogic.CompletedArtistsNames` | spotify_filter/spotify_import/import_logic.py:35-42 | After a completed artists loop every listed artist exists, and one that was new has the name of the first listed artist with its spotify_id |
| `ImportLogic.TracksRows` | spotify_filter/spotify_import/import_logic.py:45-61 | A completed tracks loop adds exactly the listed tracks and their album-track rows |
| `ImportLogic.TracksNewValues` | spotify_filter/spotify_import/import_logic.py:45-52 | A track the tracks loop creates, complete or not, takes its title and duration from the first listed item with that spotify_id; later items with the same id do not change them |
| `ImportLogic.TracksNewPlacements` | spotify_filter/spotify_import/import_logic.py:45-61 | An album-track row the tracks loop creates, complete or not, takes its track and disc numbers from the first listed item with that track id |
| `ImportLogic.CompletedTracksValues` | spotify_filter/spotify_import/import_logic.py:45-61 | After a completed tracks loop every listed track has its row and its album-track row; new ones carry the title, duration, track and disc numbers of the first item with that id |
| `ImportLogic.EntryAddsRows` | spotify_filter/spotify_import/import_logic.py:12-61 | A complete entry adds exactly its own album, artists, tracks and album-track rows |
| `ImportLogic.EntriesAddRows` | spotify_filter/spotify_import/import_logic.py:12-61 | A complete albums phase adds exactly the rows of its entries |
| `ImportLogic.ArtistLinksKeys` | spotify_filter/spotify_import/import_logic.py:35-42 | The artists loop, finished or stopped at a ref missing its id or name, adds exactly the artists of the refs it reached |
| `ImportLogic.ArtistLinksRowKeys` | spotify_filter/spotify_import/import_logic.py:35-42 | The same artists loop adds artist rows and nothing else to the set of stored keys |
| `ImportLogic.TrackStepTrackKeys` | spotify_filter/spotify_import/import_logic.py:46-52 | One pass of the tracks loop adds a track row as soon as the id, name and duration were read, even if the track or disc number is missing |
| `ImportLogic.TrackStepPairKeys` | spotify_filter/spotify_import/import_logic.py:54-61 | One pass of the tracks loop adds an album-track row only when all five keys of the item are present |
| `ImportLogic.TracksTrackKeys` | spotify_filter/spotify_import/import_logic.py:45-61 | The tracks loop, finished or stopped at a missing key, adds exactly the tracks of the items it reached, including the one whose numbers were missing |
| `ImportLogic.TracksPairKeys` | spotify_filter/spotify_import/import_logic.py:45-61 | The tracks loop, finished or stopped at a missing key, adds exactly one album-track row per complete item before the stop |
| `ImportLogic.TracksRowKeys` | spotify_filter/spotify_import/import_logic.py:45-61 | The tracks loop adds track and album-track rows and nothing else to the set of stored keys |
| `ImportLogic.EntryKeysAdded` | spotify_filter/spotify_import/import_logic.py:12-61 | One saved album, complete or not, adds exactly the album, artist, track and album-track keys it reached before any missing key |
| `ImportLogic.EntryLinksKeysAdded` | spotify_filter/spotify_import/import_logic.py:34-61 | For a saved album that lists its artists, the keys added are its album, the artists reached and, once every artist was complete, the tracks reached |
| `ImportLogic.EntriesKeysAdded` | spotify_filter/spotify_import/import_logic.py:12-61 | The albums loop, complete or stopped at a missing key, adds exactly the keys of the entries up to and including the one that stopped it |
| `ImportLogic.ImportKeysAreEntriesKeys` | spotify_filter/spotify_import/import_logic.py:63-75 | The artists phase, whatever the artist lookup answers and whether or not it fails, adds no album, artist, track or album-track key |
| `ImportLogic.ImportTwiceAddsNoRows` | spotify_filter/spotify_import/import_logic.py:12-61 | Importing the same saved albums again adds no album, artist, track or album-track row, whether the first import completed or stopped at a missing key, and whatever either artist lookup answers |
| `ImportLogic.ProfileUpdate` | spotify_filter/spotify_import/import_logic.py:68-75 | A profile with its keys sets the artist's image to the first image URL or none and links each of its genres; no artist's name changes and no other artist changes |
| `ImportLogic.PhaseCompletes` | spotify_filter/spotify_import/import_logic.py:65-72 | Over distinct stored ids, the artists phase completes exactly when each of the first `min(len ids, len profiles)` profiles has its keys |
| `ImportLogic.PhaseKeepsOthers` | spotify_filter/spotify_import/import_logic.py:65-72 | Over distinct stored ids, the artists phase changes no artist's name and leaves every artist outside the zipped ids as it was |
| `ImportLogic.PhaseSetsImages` | spotify_filter/spotify_import/import_logic.py:65-72 | Over distinct stored ids, a completed artists phase gives the i-th artist the first image URL of the i-th profile (none without images) and changes nothing else about it |
| `ImportLogic.PhaseAddsGenres` | spotify_filter/spotify_import/import_logic.py:65-75 | Over distinct stored ids, a completed artists phase stores every genre of the i-th profile and links it to the i-th artist |
| `ImportLogic.ArtistsPhaseUpdates` | spotify_filter/spotify_import/import_logic.py:64-75 | The zip pairs the i-th stored id with the i-th profile and completes exactly when each of the first `min(len ids, len profiles)` profiles has its keys; then each of those artists has its profile's image and genres, and no other artist changes |
| `ImportLogic.PhaseGivesOwnProfiles` | spotify_filter/spotify_import/import_logic.py:64-75 | When the i-th profile belongs to the i-th id, a completed phase gives every listed artist the image and genres of its own profile |
| `ImportLogic.ImportUpdatesEveryArtist` | spotify_filter/spotify_import/import_logic.py:64-67 | Against a lookup that answers one profile per id in order, a completed import gives every stored artist its own profile's image and genres |
| `ImportLogic.EntriesValid` | spotify_filter/spotify_import/import_logic.py:12-61 | The albums phase keeps the tables consistent, complete or not |
| `ImportLogic.ArtistsPhaseValid` | spotify_filter/spotify_import/import_logic.py:64-75 | The artists phase keeps the tables consistent, complete or not |
| `ImportLogic.ImportValid` | spotify_filter/spotify_import/import_logic.py:8-75 | An import keeps the tables consistent: every link points at existing rows and the artist order lists each artist once |
| `ImportLogic.LinkArtists` | spotify_filter/spotify_import/import_logic.py:35-42 | Leaves the tables and the error outcome given by `AfterArtistLinks` |
| `ImportLogic.ImportTracks` | spotify_filter/spotify_import/import_logic.py:45-61 | Leaves the tables and the error outcome given by `AfterTracks` |
| `ImportLogic.ImportEntry` | spotify_filter/spotify_import/import_logic.py:13-61 | Leaves the tables and the error outcome given by `AfterEntry` |
| `ImportLogic.ImportEntries` | spotify_filter/spotify_import/import_logic.py:12-61 | Leaves the tables and the error outcome given by `AfterEntries` |
| `ImportLogic.AddGenres` | spotify_filter/spotify_import/import_logic.py:73-75 | Leaves the tables given by `AfterGenres` |
| `ImportLogic.UpdateArtist` | spotify_filter/spotify_import/import_logic.py:68-75 | Leaves the tables and the error outcome given by `AfterProfile` |
| `ImportLogic.UpdateArtists` | spotify_filter/spotify_import/import_logic.py:65-75 | Leaves the tables and the error outcome given by `AfterArtistsPhase` |
| `ImportLogic.ImportFromSpotify` | spotify_filter/spotify_import/import_logic.py:8-75 | Leaves the tables and the error outcome given by `AfterImport` on the albums `retrieve_albums()` returns and the client's artist lookup |
| `Text.SplitGivesWords` | spotify_filter/filters.py:29 | Every piece `str.split()` returns is non-empty and free of whitespace |
| `Text.SplitKeepsOtherCharacters` | spotify_filter/filters.py:29 | The pieces of `str.split()`, put together, are the non-whitespace characters of the string in order |
| `Text.SplitEmptyIff` | spotify_filter/filters.py:29-32 | `str.split()` gives nothing exactly when the string is empty or all whitespace |
| `Text.SplitUnwords` | spotify_filter/filters.py:29 | Words joined by single spaces split back into the same words |
| `Text.StripOfWord` | spotify_filter/filters.py:29 | `strip()` leaves a piece of `split()` unchanged |
| `Text.ContainsIff` | spotify_filter/filters.py:36 | The substring test used for `icontains` holds exactly when the piece occurs at some position |
| `Filters.Distinct` | spotify_filter/filters.py:38 | `.distinct()` keeps exactly the rows of the query set, each once |
| `Filters.JoinFilter` | spotify_filter/filters.py:36 | A filter across a to-many relation keeps exactly the rows with some related name containing the text, ignoring case |
| `Filters.KeywordsAreSplit` | spotify_filter/filters.py:29 | The strip-and-drop-empty comprehension never changes what `replace(",", " ").split()` gives |
| `Filters.KeywordShape` | spotify_filter/filters.py:29 | Every keyword is non-empty and holds no comma and no whitespace |
| `Filters.KeywordsKeepOrder` | spotify_filter/filters.py:29 | The keywords, put together, are the characters of the value other than commas and whitespace, in input order |
| `Filters.NoKeywordsIff` | spotify_filter/filters.py:29-32 | There are no keywords exactly when the value is empty, blank or made of commas and whitespace only |
| `Filters.KeywordsOfUnwords` | spotify_filter/filters.py:29 | Keywords written with single spaces between them are read back as the same keywords |
| `Filters.CommaPairKeywords` | spotify_filter/filters.py:29 | Two keywords written with a comma and a space between them are read back as those two keywords |
| `Filters.KeywordsExample` | spotify_filter/filters.py:29 | "indie, experimental" is read as the keywords "indie" and "experimental" |
| `Filters.ChainGenreFiltersMembers` | spotify_filter/filters.py:35-36 | After one genre filter per keyword, an artist remains exactly when every keyword is contained in one of its genre names |
| `Filters.FilterByKeywordsMembers` | spotify_filter/filters.py:31-38 | The result holds an artist of the query set exactly when every keyword is contained, ignoring case, in some genre name of it; different keywords may match different genres |
| `Filters.AddingKeywordNarrows` | spotify_filter/filters.py:35-36 | Adding a keyword never lets more artists through |
| `Filters.NarrowByKeywords` | spotify_filter/filters.py:35-36 | The loop applies one genre filter per keyword in order; an artist remains exactly when every keyword is contained in one of its genre names |
| `Filters.FilterByGenre` | spotify_filter/filters.py:26-38 | Without keywords returns the query set unchanged; otherwise returns each artist of the query set that matches every keyword, once |
| `Filters.GenreMatchesExample` | spotify_filter/tests/tests.py:505-537 | "indie" is in "indie Rock", "experimental" in "experimental"; "experimental" is not in "indie Rock" and "indie" not in "jazz" |
| `Filters.GenreKeywordsAreConjunctive` | spotify_filter/tests/tests.py:505-537 | "indie, experimental" over artists with genres {indie Rock, experimental}, {indie Rock} and {jazz} returns exactly the first artist |
| `Filters.FilterArtistsByName` | spotify_filter/filters.py:9-11 | A blank value returns the query set as it is; otherwise keeps exactly the artists whose name contains the text, ignoring case, each once |
| `Filters.FilterArtistsByAlbumTitle` | spotify_filter/filters.py:12-17 | A blank value returns the query set as it is, artists without albums included; otherwise keeps exactly the artists with some album whose title contains the text, ignoring case, each once |
| `Filters.FilterAlbumsByTitle` | spotify_filter/filters.py:44-46 | A blank value returns the query set as it is; otherwise keeps exactly the albums whose title contains the text, ignoring case, each once |
| `Filters.FilterAlbumsByArtistName` | spotify_filter/filters.py:47-52 | A blank value returns the query set as it is, albums without artists included; otherwise keeps exactly the albums with some artist whose name contains the text, ignoring case, each once |
| `Filters.TitleMatchesExample` | spotify_filter/tests/tests.py:539-563 | "The" occurs, ignoring case, in "The Dark Side of the Moon" and "The Wall" and not in "Abbey Road" |
| `Filters.TitleFilterExample` | spotify_filter/tests/tests.py:539-563 | "The" keeps "The Dark Side of the Moon" and "The Wall" and drops "Abbey Road" |
| `Filters.BlankArtistFields` | spotify_filter/filters.py:6-24 | With the name and album fields blank, the artist filter set gives exactly what the genre filter gives on the stripped genre value |
| `Filters.ArtistFilterSetExample` | spotify_filter/tests/tests.py:505-537 | `ArtistFilter(data={"genre_name": "indie, experimental"}).qs` over the test's three artists, none with albums, is exactly the first artist |
| `Filters.AlbumFilterSetExample` | spotify_filter/tests/tests.py:539-563 | `AlbumFilter(data={"album_name": "The"}).qs` over the test's three albums, none with artists, keeps the first two and drops "Abbey Road" |
| `Tables.RenderGenres` | spotify_filter/tables.py:41-43 | An artist without genres renders as the empty string |
| `Tables.RenderGenresRoundTrip` | spotify_filter/tables.py:41-43 | Genre names without ", " in them are read back, in order, by splitting the rendered text at ", " |
| `Tables.RenderGenresLength` | spotify_filter/tables.py:41-43 | The rendered text is as long as the names plus one ", " between each two |
| `Tables.DashboardFilterByGenre` | spotify_filter/tables.py:62-74 | The same result as `ArtistFilter.filter_by_genre`: the query set itself without keywords, otherwise each artist matching every keyword, once |
| `Tables.DashboardArtistName` | spotify_filter/tables.py:47-49 | A blank value returns the query set as it is; otherwise keeps exactly the artists whose name contains the text, ignoring case, each once |
| `Tables.DashboardAlbumName` | spotify_filter/tables.py:50-55 | A blank value returns the query set as it is; otherwise keeps exactly the artists with some album whose title contains the text, ignoring case, each once |

## Left out

- `SpotifyImporter.__init__` (spotify_filter/spotify_import/api.py:13-20) loads credentials and builds the network client; the model takes the client as a constructor argument instead.
- The `__main__` block of api.py (lines 54-70) is file I/O and is not modelled; nor is the `logger` output.
- `import_from_spotify` called without an importer builds a `SpotifyImporter` (import_logic.py:9-10), which needs the network; the model always takes the importer as an argument.
- Api.SpotifyImporter.RetrieveAlbums: an upstream that keeps announcing a next page without ever filling `max_len` keeps the source looping for ever; the method demands a batch at which the loop is known to stop (a ghost `bound`) and says nothing about upstreams without one. `Api.HonestRetrieved` gives that bound for an upstream serving a list.
- ImportLogic.ImportFromSpotify: demands the same stopping batch for the saved-album listing, for the same reason, and covers only runs in which every client request is answered (client failures are described below).
- Api.SpotifyImporter.RetrieveArtistsById: demands `limit != 0`; the source raises `ZeroDivisionError` there. The `ceil` of a float quotient is taken as exact, which holds for lists shorter than 2^53 ids.
- `dateutil.parser.parse` is a function parameter of the import; date parsing and its errors are not modelled.
- Failures of the Spotify client are not modelled: `Api.Client` answers every request. In the source an exception from `current_user_saved_albums` or `artists` (a network error, a `SpotifyException`, a rejected `limit`) propagates out of `retrieve_albums` or `retrieve_artists_by_id` and ends `import_from_spotify` with nothing rolled back. A failed listing (import_logic.py:11) writes nothing; a failed artist lookup (import_logic.py:66) leaves every album, artist, track and link the albums phase wrote and updates no artist's image or genres. `ImportLogic.AfterImport` and `ImportLogic.ImportFromSpotify` describe only runs in which every request is answered.
- `int(...)` on JSON values: numeric fields are integers in the model; a value `int` would reject (a non-numeric string) is not modelled. Missing keys are the only malformed input the model has: a JSON `null`, a wrong type or a non-list `images` are not.
- The order in which `Artist.objects.values_list("spotify_id")` yields ids is taken to be creation order; models.py, which would fix a default ordering, is not part of this model. The lemmas about the artists phase hold for any order of distinct ids.
- A new artist's image starts as none; the field's default lives in models.py, which is not part of this model.
- The unique constraint and ordering of AlbumTrack and the `spotify_link` format, known only from models.py and the tests, are not modelled; keying album-track rows by (album, track) captures the uniqueness the importer relies on.
- The filter form's cleaning is modelled as `strip()` of each submitted string, with a field not sent passed as the blank string; the form's other validation and its error path are not modelled.
- `DashboardFilter(data=...).qs` is not modelled separately: its fields and filters are those of `ArtistFilter`, so `Filters.ArtistFilterSet` describes it too.
- `icontains` is ASCII lower-case substring search; full Unicode case folding and the database's collation are not modelled.
- The order of rows in a query set is the order of the model's input sequence; the database's own order is not modelled.
- Django views, templates, Celery tasks, URL routing, admin and app configuration are web plumbing and are not modelled.
- Retries with backoff, per-user scoping, statistics counters and per-record failure isolation do not exist in the code modelled here and are not modelled.
- `ArtistTable.render_name` and `render_albums` (tables.py:22-39) produce HTML links and are not modelled.
