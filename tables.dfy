/**
 * The dashboard table and its filter set (spotify_filter/tables.py):
 * `ArtistTable.render_genres` and `DashboardFilter`, whose three filters are
 * the same as `ArtistFilter`'s.
 */
module Tables {
  import opened Text
  import opened Filters

  /** `", ".join(names)` */
  function JoinComma(names: seq<string>): string
  {
    if names == [] then []
    else if |names| == 1 then names[0]
    else names[0] + ", " + JoinComma(names[1..])
  }

  /** `ArtistTable.render_genres`: the artist's genre names, in query order, joined by ", ". */
  function RenderGenres(genreNames: seq<string>): (r: string)
    ensures genreNames == [] ==> r == []
  {
    JoinComma(genreNames)
  }

  /** `s.split(", ")`: the pieces between occurrences of ", ", found left to right. */
  function SplitComma(s: string): (pieces: seq<string>)
    ensures pieces != []
    decreases |s|
  {
    if s == [] then [[]]
    else if |s| >= 2 && s[..2] == ", " then [[]] + SplitComma(s[2..])
    else
      var rest := SplitComma(s[1..]);
      [[s[0]] + rest[0]] + rest[1..]
  }

  lemma {:induction false} SplitCommaOfPiece(n: string)
    requires !Contains(n, ", ")
    ensures SplitComma(n) == [n]
    decreases |n|
  {
    if n != [] {
      assert !IsPrefix(", ", n);
      SplitCommaOfPiece(n[1..]);
      assert [n[0]] + n[1..] == n;
    }
  }

  lemma {:induction false} SplitCommaAfterPiece(n: string, tail: string)
    requires !Contains(n, ", ")
    ensures SplitComma(n + ", " + tail) == [n] + SplitComma(tail)
    decreases |n|
  {
    var s := n + ", " + tail;
    if n == [] {
      assert s[..2] == ", ";
      assert s[2..] == tail;
    } else {
      assert s[..2] != ", " by {
        if |n| >= 2 {
          assert s[..2] == n[..2];
          assert !IsPrefix(", ", n);
        } else {
          assert s[1] == ',';
        }
      }
      assert s[1..] == n[1..] + ", " + tail;
      SplitCommaAfterPiece(n[1..], tail);
      assert [n[0]] + n[1..] == n;
    }
  }

  /** Genre names that do not themselves contain ", " can be read back from the rendered text. */
  lemma {:induction false} RenderGenresRoundTrip(genreNames: seq<string>)
    requires genreNames != []
    requires forall n :: n in genreNames ==> !Contains(n, ", ")
    ensures SplitComma(RenderGenres(genreNames)) == genreNames
  {
    if |genreNames| == 1 {
      SplitCommaOfPiece(genreNames[0]);
    } else {
      SplitCommaAfterPiece(genreNames[0], JoinComma(genreNames[1..]));
      RenderGenresRoundTrip(genreNames[1..]);
    }
  }

  /** The rendered text is as long as the names plus one ", " between each two of them. */
  lemma {:induction false} RenderGenresLength(genreNames: seq<string>)
    requires genreNames != []
    ensures |RenderGenres(genreNames)| == |Concat(genreNames)| + 2 * (|genreNames| - 1)
  {
    if |genreNames| > 1 {
      RenderGenresLength(genreNames[1..]);
    }
  }

  /** `DashboardFilter.filter_by_genre`, the same algorithm as `ArtistFilter.filter_by_genre`. */
  method DashboardFilterByGenre(queryset: seq<ArtistRow>, value: string) returns (result: seq<ArtistRow>)
    ensures result == FilterByKeywords(queryset, Keywords(value))
    ensures forall a :: a in result <==> a in queryset && MatchesAllKeywords(a, Keywords(value))
    ensures Keywords(value) == [] ==> result == queryset
    ensures Keywords(value) != [] ==> NoDuplicates(result)
  {
    result := FilterByGenre(queryset, value);
  }

  /** `DashboardFilter.artist_name`: artists whose name contains the text, ignoring case, each once; a blank value filters nothing. */
  function DashboardArtistName(qs: seq<ArtistRow>, text: string): (r: seq<ArtistRow>)
    ensures text == [] ==> r == qs
    ensures text != [] ==> NoDuplicates(r)
    ensures text != [] ==> forall a :: a in r <==> a in qs && IContains(a.name, text)
  {
    FilterArtistsByName(qs, text)
  }

  /** `DashboardFilter.album_name`: artists with some album whose title contains the text, ignoring case, each once; a blank value filters nothing. */
  function DashboardAlbumName(qs: seq<ArtistRow>, text: string): (r: seq<ArtistRow>)
    ensures text == [] ==> r == qs
    ensures text != [] ==> NoDuplicates(r)
    ensures text != [] ==> forall a :: a in r <==> a in qs && exists t :: t in a.albumTitles && IContains(t, text)
  {
    FilterArtistsByAlbumTitle(qs, text)
  }
}
