/**
 * The filter sets of the dashboard (spotify_filter/filters.py): `ArtistFilter`
 * with its name, album-title and genre-keyword filters, and `AlbumFilter` with
 * its title and artist-name filters.
 *
 * A query set is modelled as the sequence of rows the database returns. A
 * lookup across a to-many relation (`genres__name__icontains`,
 * `albums__title__icontains`, `artists__name__icontains`) is a join: a row
 * comes back once per related name that matches, so the same artist can
 * appear several times until `.distinct()` removes the repeats.
 */
module Filters {
  import opened Text

  /** An artist as a query sees it: primary key, name, and the names reached through its relations. */
  datatype ArtistRow = ArtistRow(pk: nat, name: string, genreNames: seq<string>, albumTitles: seq<string>)

  /** An album as a query sees it: primary key, title and the names of its artists. */
  datatype AlbumRow = AlbumRow(pk: nat, title: string, artistNames: seq<string>)

  // Fields and relations, as functions, so that a filter can be told which one to look at.
  function ArtistName(a: ArtistRow): seq<string> { [a.name] }
  function GenreNames(a: ArtistRow): seq<string> { a.genreNames }
  function AlbumTitles(a: ArtistRow): seq<string> { a.albumTitles }
  function AlbumTitle(al: AlbumRow): seq<string> { [al.title] }
  function ArtistNames(al: AlbumRow): seq<string> { al.artistNames }

  predicate NoDuplicates<T(==)>(s: seq<T>)
  {
    forall i, j :: 0 <= i < j < |s| ==> s[i] != s[j]
  }

  /** Some name in `names` contains `text`, ignoring ASCII case. */
  predicate AnyContains(names: seq<string>, text: string)
  {
    exists n :: n in names && IContains(n, text)
  }

  /** `QuerySet.distinct()`: the same rows, each once, in order of first appearance. */
  function Distinct<T(==, !new)>(s: seq<T>): (r: seq<T>)
    ensures NoDuplicates(r)
    ensures forall x :: x in r <==> x in s
  {
    if s == [] then []
    else
      var rest := Distinct(s[..|s| - 1]);
      assert s == s[..|s| - 1] + [s[|s| - 1]];
      if s[|s| - 1] in rest then rest else rest + [s[|s| - 1]]
  }

  /** The names in `names` that contain `text`, ignoring ASCII case. */
  function Matching(names: seq<string>, text: string): (r: seq<string>)
    ensures forall n :: n in r <==> n in names && IContains(n, text)
  {
    if names == [] then []
    else (if IContains(names[0], text) then [names[0]] else []) + Matching(names[1..], text)
  }

  function Repeat<T>(x: T, k: nat): (r: seq<T>)
    ensures |r| == k
    ensures forall i :: 0 <= i < k ==> r[i] == x
  {
    seq(k, _ => x)
  }

  /**
   * `qs.filter(<relation>__icontains=text)`: one result row per pair of a row
   * and a related name that contains `text`.
   */
  function JoinFilter<T(!new)>(qs: seq<T>, related: T -> seq<string>, text: string): (r: seq<T>)
    ensures forall x :: x in r <==> x in qs && AnyContains(related(x), text)
  {
    if qs == [] then []
    else
      var k := |Matching(related(qs[0]), text)|;
      assert k > 0 <==> AnyContains(related(qs[0]), text) by {
        if k > 0 {
          assert Matching(related(qs[0]), text)[0] in Matching(related(qs[0]), text);
        }
        if AnyContains(related(qs[0]), text) {
          var n :| n in related(qs[0]) && IContains(n, text);
          assert n in Matching(related(qs[0]), text);
        }
      }
      assert k > 0 ==> Repeat(qs[0], k)[0] == qs[0];
      assert qs == [qs[0]] + qs[1..];
      Repeat(qs[0], k) + JoinFilter(qs[1..], related, text)
  }

  /** `value.replace(",", " ").split()` followed by the `strip()` comprehension. */
  function Keywords(value: string): seq<string>
  {
    StripAll(Split(ReplaceCommas(value)))
  }

  /** `[v.strip() for v in ws if v.strip()]` */
  function StripAll(ws: seq<string>): seq<string>
  {
    if ws == [] then []
    else (if Strip(ws[0]) != [] then [Strip(ws[0])] else []) + StripAll(ws[1..])
  }

  /** Commas and whitespace both separate keywords. */
  predicate IsSeparator(c: char)
  {
    c == ',' || IsSpace(c)
  }

  /** The characters of `s` that are not separators, in order. */
  function Kept(s: string): string
  {
    if s == [] then []
    else (if IsSeparator(s[0]) then [] else [s[0]]) + Kept(s[1..])
  }

  lemma {:induction false} StripAllOfWords(ws: seq<string>)
    requires forall w :: w in ws ==> IsWord(w)
    ensures StripAll(ws) == ws
  {
    if ws != [] {
      StripOfWord(ws[0]);
      StripAllOfWords(ws[1..]);
    }
  }

  /** The `strip()` and the emptiness test in the comprehension never change the outcome of `split()`. */
  lemma KeywordsAreSplit(value: string)
    ensures Keywords(value) == Split(ReplaceCommas(value))
  {
    SplitGivesWords(ReplaceCommas(value));
    StripAllOfWords(Split(ReplaceCommas(value)));
  }

  /** A keyword is non-empty and holds no comma and no whitespace. */
  lemma KeywordShape(value: string)
    ensures forall kw :: kw in Keywords(value) ==>
      kw != [] && forall i :: 0 <= i < |kw| ==> !IsSeparator(kw[i])
  {
    var r := ReplaceCommas(value);
    KeywordsAreSplit(value);
    SplitGivesWords(r);
    forall kw | kw in Split(r) ensures forall i :: 0 <= i < |kw| ==> kw[i] != ',' {
      SplitKeepsOtherCharacters(r);
      WordInConcat(Split(r), kw);
      NoCommaAfterReplace(value);
    }
  }

  lemma {:induction false} WordInConcat(ws: seq<string>, w: string)
    requires w in ws
    ensures forall i :: 0 <= i < |w| ==> w[i] in Concat(ws)
  {
    if ws[0] != w {
      WordInConcat(ws[1..], w);
    }
    ConcatAppend([ws[0]], ws[1..]);
    assert ws == [ws[0]] + ws[1..];
  }

  lemma {:induction false} NoCommaAfterReplace(value: string)
    ensures ',' !in NonSpace(ReplaceCommas(value))
  {
    if value != [] {
      var r := ReplaceCommas(value);
      assert r[1..] == ReplaceCommas(value[1..]);
      NoCommaAfterReplace(value[1..]);
    }
  }

  lemma {:induction false} NonSpaceOfReplaced(value: string)
    ensures NonSpace(ReplaceCommas(value)) == Kept(value)
  {
    if value != [] {
      var r := ReplaceCommas(value);
      assert r[1..] == ReplaceCommas(value[1..]);
      NonSpaceOfReplaced(value[1..]);
    }
  }

  /** The keywords, put back together, are the non-separator characters of the value in their input order. */
  lemma KeywordsKeepOrder(value: string)
    ensures Concat(Keywords(value)) == Kept(value)
  {
    KeywordsAreSplit(value);
    SplitKeepsOtherCharacters(ReplaceCommas(value));
    NonSpaceOfReplaced(value);
  }

  /** There are no keywords exactly when the value is empty, blank or made of commas and whitespace only. */
  lemma NoKeywordsIff(value: string)
    ensures Keywords(value) == [] <==> forall i :: 0 <= i < |value| ==> IsSeparator(value[i])
  {
    var r := ReplaceCommas(value);
    KeywordsAreSplit(value);
    SplitEmptyIff(r);
    assert forall i :: 0 <= i < |value| ==> (IsSeparator(value[i]) <==> IsSpace(r[i]));
  }

  /** Keywords written out with single spaces between them are read back as the same keywords. */
  lemma KeywordsOfUnwords(ks: seq<string>)
    requires forall k :: k in ks ==> k != [] && forall i :: 0 <= i < |k| ==> !IsSeparator(k[i])
    ensures Keywords(Unwords(ks)) == ks
  {
    UnwordsHasNoComma(ks);
    var u := Unwords(ks);
    assert ReplaceCommas(u) == u;
    KeywordsAreSplit(u);
    SplitUnwords(ks);
  }

  lemma {:induction false} UnwordsHasNoComma(ks: seq<string>)
    requires forall k :: k in ks ==> forall i :: 0 <= i < |k| ==> !IsSeparator(k[i])
    ensures forall i :: 0 <= i < |Unwords(ks)| ==> Unwords(ks)[i] != ','
  {
    if |ks| > 1 {
      UnwordsHasNoComma(ks[1..]);
      var u := Unwords(ks);
      assert u == ks[0] + " " + Unwords(ks[1..]);
      forall i | 0 <= i < |u| ensures u[i] != ',' {
        if i < |ks[0]| {
          assert u[i] == ks[0][i];
        } else if i > |ks[0]| {
          assert u[i] == Unwords(ks[1..])[i - |ks[0]| - 1];
        }
      }
    }
  }

  /** The artist has, for each keyword, some genre whose name contains it; different keywords may use different genres. */
  predicate MatchesAllKeywords(a: ArtistRow, ks: seq<string>)
  {
    forall kw :: kw in ks ==> AnyContains(a.genreNames, kw)
  }

  /** The rows after `queryset = queryset.filter(genres__name__icontains=kw)` for each keyword in turn. */
  function ChainGenreFilters(qs: seq<ArtistRow>, ks: seq<string>): seq<ArtistRow>
    decreases |ks|
  {
    if ks == [] then qs
    else JoinFilter(ChainGenreFilters(qs, ks[..|ks| - 1]), GenreNames, ks[|ks| - 1])
  }

  lemma {:induction false} ChainGenreFiltersMembers(qs: seq<ArtistRow>, ks: seq<string>)
    ensures forall a :: a in ChainGenreFilters(qs, ks) <==> a in qs && MatchesAllKeywords(a, ks)
    decreases |ks|
  {
    if ks != [] {
      var init := ks[..|ks| - 1];
      ChainGenreFiltersMembers(qs, init);
      assert ks == init + [ks[|ks| - 1]];
    }
  }

  /** What `filter_by_genre` returns for the given keywords. */
  function FilterByKeywords(queryset: seq<ArtistRow>, ks: seq<string>): seq<ArtistRow>
  {
    if ks == [] then queryset else Distinct(ChainGenreFilters(queryset, ks))
  }

  /** An artist is kept exactly when every keyword is contained in one of its genre names. */
  lemma FilterByKeywordsMembers(queryset: seq<ArtistRow>, ks: seq<string>)
    ensures forall a :: a in FilterByKeywords(queryset, ks) <==> a in queryset && MatchesAllKeywords(a, ks)
  {
    ChainGenreFiltersMembers(queryset, ks);
  }

  /** Adding a keyword never lets more artists through. */
  lemma AddingKeywordNarrows(queryset: seq<ArtistRow>, ks: seq<string>, kw: string)
    ensures forall a :: a in FilterByKeywords(queryset, ks + [kw]) ==> a in FilterByKeywords(queryset, ks)
  {
    FilterByKeywordsMembers(queryset, ks);
    FilterByKeywordsMembers(queryset, ks + [kw]);
    forall a | a in FilterByKeywords(queryset, ks + [kw]) ensures MatchesAllKeywords(a, ks) {
      forall k | k in ks ensures AnyContains(a.genreNames, k) {
        assert k in ks + [kw];
      }
    }
  }

  /** The `for` loop of `filter_by_genre`: one `genres__name__icontains` filter per keyword, in order. */
  method NarrowByKeywords(queryset: seq<ArtistRow>, keywords: seq<string>) returns (qs: seq<ArtistRow>)
    ensures qs == ChainGenreFilters(queryset, keywords)
    ensures forall a :: a in qs <==> a in queryset && MatchesAllKeywords(a, keywords)
  {
    qs := queryset;
    for i := 0 to |keywords|
      invariant qs == ChainGenreFilters(queryset, keywords[..i])
    {
      assert keywords[..i + 1][..i] == keywords[..i] && keywords[..i + 1][i] == keywords[i];
      qs := JoinFilter(qs, GenreNames, keywords[i]);
    }
    assert keywords[..|keywords|] == keywords;
    ChainGenreFiltersMembers(queryset, keywords);
  }

  /**
   * `ArtistFilter.filter_by_genre`: split the value into keywords; with none,
   * hand back the query set as it came; otherwise narrow it once per keyword
   * and return the distinct rows.
   */
  method FilterByGenre(queryset: seq<ArtistRow>, value: string) returns (result: seq<ArtistRow>)
    ensures result == FilterByKeywords(queryset, Keywords(value))
    ensures forall a :: a in result <==> a in queryset && MatchesAllKeywords(a, Keywords(value))
    ensures Keywords(value) == [] ==> result == queryset
    ensures Keywords(value) != [] ==> NoDuplicates(result)
  {
    var keywords := Keywords(value);
    if keywords == [] {
      FilterByKeywordsMembers(queryset, keywords);
      return queryset;
    }
    var qs := NarrowByKeywords(queryset, keywords);
    result := Distinct(qs);
  }

  /*
   * The `CharFilter`s below receive the value the filter form has cleaned.
   * An empty value means the field was left blank: the filter hands back the
   * query set untouched, without the lookup and without `.distinct()`.
   */

  /** `ArtistFilter.artist_name`: `name__icontains`, then `.distinct()`. */
  function FilterArtistsByName(qs: seq<ArtistRow>, text: string): (r: seq<ArtistRow>)
    ensures text == [] ==> r == qs
    ensures text != [] ==> NoDuplicates(r)
    ensures text != [] ==> forall a :: a in r <==> a in qs && IContains(a.name, text)
  {
    if text == [] then qs
    else
      var r := Distinct(JoinFilter(qs, ArtistName, text));
      assert forall a :: AnyContains(ArtistName(a), text) <==> IContains(a.name, text) by {
        forall a ensures AnyContains(ArtistName(a), text) <==> IContains(a.name, text) {
          assert a.name in ArtistName(a);
        }
      }
      r
  }

  /** `ArtistFilter.album_name`: `albums__title__icontains`, then `.distinct()`. */
  function FilterArtistsByAlbumTitle(qs: seq<ArtistRow>, text: string): (r: seq<ArtistRow>)
    ensures text == [] ==> r == qs
    ensures text != [] ==> NoDuplicates(r)
    ensures text != [] ==> forall a :: a in r <==> a in qs && exists t :: t in a.albumTitles && IContains(t, text)
  {
    if text == [] then qs else Distinct(JoinFilter(qs, AlbumTitles, text))
  }

  /** `AlbumFilter.album_name`: `title__icontains`, then `.distinct()`. */
  function FilterAlbumsByTitle(qs: seq<AlbumRow>, text: string): (r: seq<AlbumRow>)
    ensures text == [] ==> r == qs
    ensures text != [] ==> NoDuplicates(r)
    ensures text != [] ==> forall al :: al in r <==> al in qs && IContains(al.title, text)
  {
    if text == [] then qs
    else
      var r := Distinct(JoinFilter(qs, AlbumTitle, text));
      assert forall al :: AnyContains(AlbumTitle(al), text) <==> IContains(al.title, text) by {
        forall al ensures AnyContains(AlbumTitle(al), text) <==> IContains(al.title, text) {
          assert al.title in AlbumTitle(al);
        }
      }
      r
  }

  /** `AlbumFilter.artist_name`: `artists__name__icontains`, then `.distinct()`. */
  function FilterAlbumsByArtistName(qs: seq<AlbumRow>, text: string): (r: seq<AlbumRow>)
    ensures text == [] ==> r == qs
    ensures text != [] ==> NoDuplicates(r)
    ensures text != [] ==> forall al :: al in r <==> al in qs && exists n :: n in al.artistNames && IContains(n, text)
  {
    if text == [] then qs else Distinct(JoinFilter(qs, ArtistNames, text))
  }

  /**
   * `ArtistFilter(data=...).qs`: the form strips each submitted value (a
   * missing one is blank), then the declared filters run in turn on the
   * artists, `artist_name`, `album_name`, then `genre_name`.
   */
  function ArtistFilterSet(qs: seq<ArtistRow>, artistName: string, albumName: string, genreName: string): seq<ArtistRow>
  {
    var byName := FilterArtistsByName(qs, Strip(artistName));
    var byAlbum := FilterArtistsByAlbumTitle(byName, Strip(albumName));
    FilterByKeywords(byAlbum, Keywords(Strip(genreName)))
  }

  /** `AlbumFilter(data=...).qs`: the stripped `album_name`, then the stripped `artist_name`. */
  function AlbumFilterSet(qs: seq<AlbumRow>, albumName: string, artistName: string): seq<AlbumRow>
  {
    FilterAlbumsByArtistName(FilterAlbumsByTitle(qs, Strip(albumName)), Strip(artistName))
  }

  /** Blank fields filter nothing: the artist filter set then keeps exactly the artists its filled-in fields select. */
  lemma BlankArtistFields(qs: seq<ArtistRow>, genreName: string)
    ensures ArtistFilterSet(qs, "", "", genreName) == FilterByKeywords(qs, Keywords(Strip(genreName)))
  {
    assert Strip("") == "";
  }

  // The worked examples below are built from single facts about keywords and names.

  /** Two keywords written with a comma and a space between them are read back as those two keywords. */
  lemma CommaPairKeywords(a: string, b: string)
    requires a != [] && forall i :: 0 <= i < |a| ==> !IsSeparator(a[i])
    requires b != [] && forall i :: 0 <= i < |b| ==> !IsSeparator(b[i])
    ensures Keywords(a + ", " + b) == [a, b]
  {
    var v := a + ", " + b;
    assert ReplaceCommas(v) == a + ("  " + b) by {
      assert forall i :: 0 <= i < |a| ==> v[i] == a[i];
      assert forall i :: |a| + 2 <= i < |v| ==> v[i] == b[i - |a| - 2];
    }
    SplitWordThen(a, "  " + b);
    SplitBlankWord("  ", b);
    KeywordsAreSplit(v);
  }

  /** "indie, experimental" is read as the two keywords "indie" and "experimental". */
  lemma KeywordsExample()
    ensures Keywords("indie, experimental") == ["indie", "experimental"]
  {
    assert "indie" + ", " + "experimental" == "indie, experimental";
    CommaPairKeywords("indie", "experimental");
  }

  lemma IndieInIndieRock()
    ensures IContains("indie Rock", "indie")
  {
    assert LowerStr("indie") == "indie";
    assert LowerStr("indie Rock") == "indie rock";
    assert IsPrefix("indie", "indie rock");
  }

  lemma ExperimentalInExperimental()
    ensures IContains("experimental", "experimental")
  {
    assert LowerStr("experimental") == "experimental";
    assert IsPrefix("experimental", "experimental");
  }

  lemma ExperimentalNotInIndieRock()
    ensures !IContains("indie Rock", "experimental")
  {
    assert LowerStr("experimental") == "experimental";
    assert LowerStr("indie Rock") == "indie rock";
    TooLongToContain("indie rock", "experimental");
  }

  lemma IndieNotInJazz()
    ensures !IContains("jazz", "indie")
  {
    assert LowerStr("indie") == "indie";
    assert LowerStr("jazz") == "jazz";
    AbsentFirstChar("jazz", "indie");
  }

  lemma GenreMatchesExample()
    ensures IContains("indie Rock", "indie")
    ensures IContains("experimental", "experimental")
    ensures !IContains("indie Rock", "experimental")
    ensures !IContains("jazz", "indie")
  {
    IndieInIndieRock();
    ExperimentalInExperimental();
    ExperimentalNotInIndieRock();
    IndieNotInJazz();
  }

  /** "indie, experimental" returns exactly the one artist that has a genre for each word. */
  lemma GenreKeywordsAreConjunctive()
    ensures
      var a1 := ArtistRow(1, "Artist 1", ["indie Rock", "experimental"], []);
      var a2 := ArtistRow(2, "Artist 2", ["indie Rock"], []);
      var a3 := ArtistRow(3, "Artist 3", ["jazz"], []);
      FilterByKeywords([a1, a2, a3], Keywords("indie, experimental")) == [a1]
  {
    var a1 := ArtistRow(1, "Artist 1", ["indie Rock", "experimental"], []);
    var a2 := ArtistRow(2, "Artist 2", ["indie Rock"], []);
    var a3 := ArtistRow(3, "Artist 3", ["jazz"], []);
    var ks := ["indie", "experimental"];
    KeywordsExample();
    BothGenresMatch(a1);
    IndieRockMissesExperimental(a2);
    JazzMissesIndie(a3);
    OnlyFirstKept(a1, a2, a3, ks);
  }

  lemma BothGenresMatch(a: ArtistRow)
    requires a.genreNames == ["indie Rock", "experimental"]
    ensures MatchesAllKeywords(a, ["indie", "experimental"])
  {
    IndieInIndieRock();
    ExperimentalInExperimental();
    assert a.genreNames[0] == "indie Rock" && a.genreNames[1] == "experimental";
    assert AnyContains(a.genreNames, "indie");
    assert AnyContains(a.genreNames, "experimental");
  }

  lemma IndieRockMissesExperimental(a: ArtistRow)
    requires a.genreNames == ["indie Rock"]
    ensures !MatchesAllKeywords(a, ["indie", "experimental"])
  {
    ExperimentalNotInIndieRock();
    var ks := ["indie", "experimental"];
    assert forall n :: n in a.genreNames ==> n == "indie Rock";
    assert !AnyContains(a.genreNames, "experimental");
    assert ks[1] == "experimental" && ks[1] in ks;
  }

  lemma JazzMissesIndie(a: ArtistRow)
    requires a.genreNames == ["jazz"]
    ensures !MatchesAllKeywords(a, ["indie", "experimental"])
  {
    IndieNotInJazz();
    var ks := ["indie", "experimental"];
    assert forall n :: n in a.genreNames ==> n == "jazz";
    assert !AnyContains(a.genreNames, "indie");
    assert ks[0] == "indie" && ks[0] in ks;
  }

  lemma OnlyFirstKept(a1: ArtistRow, a2: ArtistRow, a3: ArtistRow, ks: seq<string>)
    requires ks != []
    requires MatchesAllKeywords(a1, ks)
    requires !MatchesAllKeywords(a2, ks) && !MatchesAllKeywords(a3, ks)
    ensures FilterByKeywords([a1, a2, a3], ks) == [a1]
  {
    var chain := ChainGenreFilters([a1, a2, a3], ks);
    ChainGenreFiltersMembers([a1, a2, a3], ks);
    DistinctOfOne(chain, a1);
  }

  /** Rows that are all the same row come out of `.distinct()` as that one row. */
  lemma {:induction false} DistinctOfOne<T(!new)>(s: seq<T>, x: T)
    requires x in s && forall y :: y in s ==> y == x
    ensures Distinct(s) == [x]
    decreases |s|
  {
    var init := s[..|s| - 1];
    assert s[|s| - 1] in s;
    if init != [] {
      assert init[0] in init;
      assert forall y :: y in init ==> y in s;
      DistinctOfOne(init, x);
    }
  }

  lemma TheInDarkSide()
    ensures IContains("The Dark Side of the Moon", "The")
  {
    assert LowerStr("The") == "the";
    assert LowerStr("The Dark Side of the Moon")[..3] == "the";
  }

  lemma TheInTheWall()
    ensures IContains("The Wall", "The")
  {
    assert LowerStr("The") == "the";
    assert LowerStr("The Wall")[..3] == "the";
  }

  lemma TheNotInAbbeyRoad()
    ensures !IContains("Abbey Road", "The")
  {
    assert LowerStr("The") == "the";
    assert LowerStr("Abbey Road") == "abbey road";
    AbsentFirstChar("abbey road", "the");
  }

  lemma TitleMatchesExample()
    ensures IContains("The Dark Side of the Moon", "The")
    ensures IContains("The Wall", "The")
    ensures !IContains("Abbey Road", "The")
  {
    TheInDarkSide();
    TheInTheWall();
    TheNotInAbbeyRoad();
  }

  /** "The" keeps "The Wall" and "The Dark Side of the Moon" and drops "Abbey Road". */
  lemma TitleFilterExample()
    ensures
      var al1 := AlbumRow(1, "The Dark Side of the Moon", []);
      var al2 := AlbumRow(2, "The Wall", []);
      var al3 := AlbumRow(3, "Abbey Road", []);
      var r := FilterAlbumsByTitle([al1, al2, al3], "The");
      al1 in r && al2 in r && al3 !in r
  {
    TitleMatchesExample();
  }

  /** The artists of the genre test: only the first has a genre for each of "indie" and "experimental". */
  lemma ArtistFilterSetExample()
    ensures
      var a1 := ArtistRow(1, "Artist 1", ["indie Rock", "experimental"], []);
      var a2 := ArtistRow(2, "Artist 2", ["indie Rock"], []);
      var a3 := ArtistRow(3, "Artist 3", ["jazz"], []);
      ArtistFilterSet([a1, a2, a3], "", "", "indie, experimental") == [a1]
  {
    var a1 := ArtistRow(1, "Artist 1", ["indie Rock", "experimental"], []);
    var a2 := ArtistRow(2, "Artist 2", ["indie Rock"], []);
    var a3 := ArtistRow(3, "Artist 3", ["jazz"], []);
    BlankArtistFields([a1, a2, a3], "indie, experimental");
    assert Strip("indie, experimental") == "indie, experimental" by { StripOfFramed("indie, experimental"); }
    GenreKeywordsAreConjunctive();
  }

  /** The albums of the title test, through the whole album filter set with the artist field blank. */
  lemma AlbumFilterSetExample()
    ensures
      var al1 := AlbumRow(1, "The Dark Side of the Moon", []);
      var al2 := AlbumRow(2, "The Wall", []);
      var al3 := AlbumRow(3, "Abbey Road", []);
      var r := AlbumFilterSet([al1, al2, al3], "The", "");
      al1 in r && al2 in r && al3 !in r
  {
    assert Strip("The") == "The" by { StripOfFramed("The"); }
    assert Strip("") == "";
    TitleFilterExample();
  }
}
