/**
 * `SpotifyImporter` (spotify_filter/spotify_import/api.py): reading the saved
 * albums page by page, and the artist profiles in chunks of ids.
 *
 * The Spotify client `sp` is an oracle: a pair of total functions from a
 * request to its response. Nothing is assumed about it except where a lemma
 * says so; `Honest` is the well-behaved upstream that serves a fixed list.
 */
module Api {
  import opened Wrappers
  import opened Payload

  /** The two calls the importer makes on `sp`. */
  datatype Client = Client(
    currentUserSavedAlbums: (int, int) -> Page<AlbumEntry>,   // (limit, offset) to one page
    artists: seq<string> -> seq<ArtistProfile>)               // ids to the response's "artists"

  function Min(a: int, b: int): int
  {
    if a <= b then a else b
  }

  // ---------------------------------------------------------------------------
  // The request sequence of retrieve_albums, for a listing of any item type.
  // `maxLen == None` is `max_len=inf`.
  // ---------------------------------------------------------------------------

  /** Offset of batch `k`. */
  function BatchOffset(offset: int, limit: int, k: nat): int
  {
    offset + limit * k
  }

  /** Size asked for in batch `k`: `limit`, cut down to what is left of `maxLen`. */
  function BatchLimit(maxLen: Option<nat>, offset: int, limit: int, k: nat): (r: int)
    ensures r <= limit
    ensures maxLen.None? ==> r == limit
    ensures maxLen.Some? ==> r <= maxLen.value - limit * k
  {
    match maxLen
    case None => limit
    case Some(m) => Min(limit, m + offset - BatchOffset(offset, limit, k))
  }

  /** The upstream's answer to batch `k`. */
  function Response<T>(fetch: (int, int) -> Page<T>, maxLen: Option<nat>, offset: int, limit: int, k: nat): Page<T>
  {
    fetch(BatchLimit(maxLen, offset, limit, k), BatchOffset(offset, limit, k))
  }

  /** The items of the first `n` responses, in request order. */
  function Fetched<T>(fetch: (int, int) -> Page<T>, maxLen: Option<nat>, offset: int, limit: int, n: nat): seq<T>
  {
    if n == 0 then []
    else Fetched(fetch, maxLen, offset, limit, n - 1) + Response(fetch, maxLen, offset, limit, n - 1).items
  }

  /** Batch `k` ends the loop: no next page, or `maxLen` items gathered. */
  predicate StopsAfter<T>(fetch: (int, int) -> Page<T>, maxLen: Option<nat>, offset: int, limit: int, k: nat)
  {
    Response(fetch, maxLen, offset, limit, k).next.None?
    || (maxLen.Some? && |Fetched(fetch, maxLen, offset, limit, k + 1)| >= maxLen.value)
  }

  /** The first batch from `k` on that ends the loop, given that batch `bound` does. */
  function FirstStop<T>(fetch: (int, int) -> Page<T>, maxLen: Option<nat>, offset: int, limit: int,
                        k: nat, bound: nat): (r: nat)
    requires k <= bound && StopsAfter(fetch, maxLen, offset, limit, bound)
    ensures k <= r <= bound && StopsAfter(fetch, maxLen, offset, limit, r)
    ensures forall j: nat :: k <= j < r ==> !StopsAfter(fetch, maxLen, offset, limit, j)
    decreases bound - k
  {
    if StopsAfter(fetch, maxLen, offset, limit, k) then k
    else FirstStop(fetch, maxLen, offset, limit, k + 1, bound)
  }

  /** What the loop returns: the items of every batch up to the first one that ends it. */
  function Retrieved<T>(fetch: (int, int) -> Page<T>, maxLen: Option<nat>, offset: int, limit: int, bound: nat): seq<T>
    requires StopsAfter(fetch, maxLen, offset, limit, bound)
  {
    Fetched(fetch, maxLen, offset, limit, FirstStop(fetch, maxLen, offset, limit, 0, bound) + 1)
  }

  /** A batch that ends the loop with none ending it before is the first stop, whatever bound was named. */
  lemma StopIsFirst<T>(fetch: (int, int) -> Page<T>, maxLen: Option<nat>, offset: int, limit: int, bound: nat, b: nat)
    requires StopsAfter(fetch, maxLen, offset, limit, bound)
    requires StopsAfter(fetch, maxLen, offset, limit, b)
    requires forall k: nat :: k < b ==> !StopsAfter(fetch, maxLen, offset, limit, k)
    ensures b == FirstStop(fetch, maxLen, offset, limit, 0, bound)
  {
  }

  /** The sum of the positive page sizes asked for in the first `n` batches. */
  function Requested(maxLen: Option<nat>, offset: int, limit: int, n: nat): int
  {
    if n == 0 then 0
    else
      var b := BatchLimit(maxLen, offset, limit, n - 1);
      Requested(maxLen, offset, limit, n - 1) + (if b > 0 then b else 0)
  }

  // ---------------------------------------------------------------------------
  // The id chunks of retrieve_artists_by_id.
  // ---------------------------------------------------------------------------

  /**
   * `ceil(len(ids) / limit)`: the number of chunks. A negative `limit` makes
   * the quotient negative or a fraction above -1, whose ceiling is at most 0.
   */
  function NumBatches(n: nat, limit: int): (r: nat)
    requires limit != 0
    ensures limit < 0 ==> r == 0
    ensures limit > 0 ==> r * limit >= n && (r == 0 || (r - 1) * limit < n)
  {
    if limit > 0 then (n + limit - 1) / limit else 0
  }

  /** `ids[i * limit : (i + 1) * limit]`, with Python's clamping of slice bounds. */
  function Chunk(ids: seq<string>, limit: int, i: nat): seq<string>
    requires limit > 0
  {
    var lo := Min(i * limit, |ids|);
    var hi := Min((i + 1) * limit, |ids|);
    ids[lo..hi]
  }

  /** The concatenated responses to the first `n` chunks. */
  function ChunkResponses(lookup: seq<string> -> seq<ArtistProfile>, ids: seq<string>, limit: int, n: nat): seq<ArtistProfile>
    requires limit > 0
  {
    if n == 0 then []
    else ChunkResponses(lookup, ids, limit, n - 1) + lookup(Chunk(ids, limit, n - 1))
  }

  /** What retrieve_artists_by_id returns. */
  function ArtistsFetched(lookup: seq<string> -> seq<ArtistProfile>, ids: seq<string>, limit: int): seq<ArtistProfile>
    requires limit != 0
  {
    if limit < 0 then [] else ChunkResponses(lookup, ids, limit, NumBatches(|ids|, limit))
  }

  // ---------------------------------------------------------------------------
  // Properties of the request sequence.
  // ---------------------------------------------------------------------------

  lemma MulStep(limit: int, k: nat)
    ensures limit * (k + 1) == limit * k + limit
  {
  }

  lemma {:induction false} MulMono(limit: int, j: nat, k: nat)
    requires limit > 0 && j <= k
    ensures limit * j <= limit * k
    decreases k - j
  {
    if j < k {
      MulMono(limit, j, k - 1);
      MulStep(limit, k - 1);
    }
  }

  /** Chunk i starts at a non-negative position and chunk i + 1 starts `limit` further on. */
  lemma ChunkStart(limit: int, i: nat)
    requires limit > 0
    ensures 0 <= i * limit && (i + 1) * limit == i * limit + limit
  {
    MulMono(limit, 0, i);
    MulStep(limit, i);
  }

  /** Batch k+1 starts where batch k's window of `limit` items ends, and no two windows overlap. */
  lemma BatchesContiguous(offset: int, limit: int, j: nat, k: nat)
    requires limit > 0 && j < k
    ensures BatchOffset(offset, limit, j) + limit <= BatchOffset(offset, limit, k)
    ensures BatchOffset(offset, limit, k + 1) == BatchOffset(offset, limit, k) + limit
  {
    MulMono(limit, j + 1, k);
    MulStep(limit, j);
    MulStep(limit, k);
  }

  /**
   * With a bounded `maxLen`, the positive sizes asked for in the first n
   * batches add up to min(maxLen, limit * n): never more than `maxLen`.
   */
  lemma {:induction false} RequestedTotal(m: nat, offset: int, limit: int, n: nat)
    requires limit > 0
    ensures Requested(Some(m), offset, limit, n) == Min(m, limit * n)
  {
    if n > 0 {
      RequestedTotal(m, offset, limit, n - 1);
      MulStep(limit, n - 1);
    }
  }

  /** `limit * (n + 1)` is the first multiple of `limit` that reaches past `r - 1` when `n = (r - 1) / limit`. */
  lemma DivBounds(r: nat, limit: int)
    requires limit > 0 && r > 0
    ensures limit * ((r - 1) / limit) <= r - 1
    ensures r <= limit * ((r - 1) / limit + 1)
  {
    var q := (r - 1) / limit;
    assert r - 1 == limit * q + (r - 1) % limit;
    MulStep(limit, q);
  }

  // ---------------------------------------------------------------------------
  // An honest upstream serving the list L.
  // ---------------------------------------------------------------------------

  const NextPage: string := "next"

  function Clip(x: int, n: nat): nat
  {
    if x < 0 then 0 else if x > n then n else x
  }

  /** The items of L at positions [off, off + lim), cut to the list. */
  function Window<T>(L: seq<T>, off: int, lim: int): seq<T>
  {
    var lo := Clip(off, |L|);
    var hi := Clip(off + lim, |L|);
    if hi <= lo then [] else L[lo..hi]
  }

  /** Serves `L[off .. off + lim]` and announces a next page while items remain after it. */
  function Honest<T>(L: seq<T>): (int, int) -> Page<T>
  {
    (lim: int, off: int) => Page(Window(L, off, lim), if off + lim < |L| then Some(NextPage) else None)
  }

  lemma HonestAnswer<T>(L: seq<T>, lim: int, off: int)
    ensures Honest(L)(lim, off) == Page(Window(L, off, lim), if off + lim < |L| then Some(NextPage) else None)
  {
  }

  /** How many items the loop should gather: those after `offset`, at most `maxLen`. */
  function Remaining(n: nat, maxLen: Option<nat>, offset: int): nat
  {
    var left := if offset < n then n - offset else 0;
    match maxLen
    case None => left
    case Some(m) => if m < left then m else left
  }

  /** The batch after which the loop stops against an honest upstream. */
  function HonestStop(n: nat, maxLen: Option<nat>, offset: int, limit: int): nat
    requires limit > 0
  {
    var r := Remaining(n, maxLen, offset);
    if r == 0 then 0 else (r - 1) / limit
  }

  /** `L[offset : offset + max_len]`: what retrieve_albums is meant to return. */
  function Wanted<T>(L: seq<T>, maxLen: Option<nat>, offset: int): seq<T>
    requires offset >= 0
  {
    var lo := Min(offset, |L|);
    var hi := match maxLen
      case None => |L|
      case Some(m) => Min(offset + m, |L|);
    if hi <= lo then [] else L[lo..hi]
  }

  lemma RemainingBounds(n: nat, maxLen: Option<nat>, offset: int)
    requires offset >= 0
    ensures Remaining(n, maxLen, offset) > 0 ==> offset + Remaining(n, maxLen, offset) <= n
    ensures maxLen.Some? ==> Remaining(n, maxLen, offset) <= maxLen.value
    ensures maxLen.None? || maxLen.value > 0 ==> (Remaining(n, maxLen, offset) == 0 <==> offset >= n)
  {
  }

  /** A batch that ends before the goal is a full page that announces a next one. */
  lemma HonestFullPage<T>(L: seq<T>, maxLen: Option<nat>, offset: int, limit: int, j: nat)
    requires limit > 0 && offset >= 0
    requires limit * j + limit < Remaining(|L|, maxLen, offset)
    ensures Response(Honest(L), maxLen, offset, limit, j)
      == Page(L[offset + limit * j..offset + limit * j + limit], Some(NextPage))
  {
    var a := limit * j;
    RemainingBounds(|L|, maxLen, offset);
    assert BatchOffset(offset, limit, j) == offset + a;
    assert BatchLimit(maxLen, offset, limit, j) == limit;
    assert 0 <= offset + a && offset + a + limit <= |L| by { MulMono(limit, 0, j); }
    assert Window(L, offset + a, limit) == L[offset + a..offset + a + limit];
    HonestAnswer(L, limit, offset + a);
  }

  lemma SliceAppend<T>(L: seq<T>, i: int, j: int, k: int)
    requires 0 <= i <= j <= k <= |L|
    ensures L[i..j] + L[j..k] == L[i..k]
  {
  }

  /** Batch j brought the `limit` items of L at the batch's own offset. */
  ghost predicate FullPage<T>(fetch: (int, int) -> Page<T>, L: seq<T>, maxLen: Option<nat>, offset: int, limit: int, j: nat)
  {
    0 < limit && 0 <= limit * j && 0 <= offset && offset + limit * j + limit <= |L|
    && Response(fetch, maxLen, offset, limit, j).items == L[offset + limit * j..offset + limit * j + limit]
  }

  /** Full pages of consecutive items of L, gathered in order, are the stretch of L they cover. */
  lemma {:induction false} FullPagesPrefix<T>(fetch: (int, int) -> Page<T>, L: seq<T>, maxLen: Option<nat>,
                                              offset: int, limit: int, k: nat)
    requires limit > 0 && 0 <= offset && offset + limit * k <= |L|
    requires forall j: nat :: j < k ==> FullPage(fetch, L, maxLen, offset, limit, j)
    ensures Fetched(fetch, maxLen, offset, limit, k) == L[offset..offset + limit * k]
  {
    if k > 0 {
      var j := k - 1;
      var a := limit * j;
      assert limit * k == a + limit by { MulStep(limit, j); }
      assert FullPage(fetch, L, maxLen, offset, limit, j);
      FullPagesPrefix(fetch, L, maxLen, offset, limit, j);
      assert Fetched(fetch, maxLen, offset, limit, k)
        == Fetched(fetch, maxLen, offset, limit, j) + Response(fetch, maxLen, offset, limit, j).items;
      SliceAppend(L, offset, offset + a, offset + a + limit);
    }
  }

  /** Before the goal is reached, the items gathered are the next stretch of L. */
  lemma HonestPrefix<T>(L: seq<T>, maxLen: Option<nat>, offset: int, limit: int, k: nat)
    requires limit > 0 && offset >= 0
    requires limit * k < Remaining(|L|, maxLen, offset)
    ensures Fetched(Honest(L), maxLen, offset, limit, k) == L[offset..offset + limit * k]
  {
    RemainingBounds(|L|, maxLen, offset);
    forall j: nat | j < k
      ensures FullPage(Honest(L), L, maxLen, offset, limit, j)
    {
      var a := limit * j;
      assert 0 <= a && a + limit < Remaining(|L|, maxLen, offset) by {
        MulMono(limit, 0, j);
        MulMono(limit, j + 1, k);
        MulStep(limit, j);
      }
      HonestFullPage(L, maxLen, offset, limit, j);
    }
    FullPagesPrefix(Honest(L), L, maxLen, offset, limit, k);
  }

  /** A batch that ends before the goal does not stop the loop. */
  lemma HonestKeepsReading<T>(L: seq<T>, maxLen: Option<nat>, offset: int, limit: int, j: nat)
    requires limit > 0 && offset >= 0
    requires limit * j + limit < Remaining(|L|, maxLen, offset)
    ensures !StopsAfter(Honest(L), maxLen, offset, limit, j)
  {
    var r := Remaining(|L|, maxLen, offset);
    RemainingBounds(|L|, maxLen, offset);
    HonestFullPageNext(L, maxLen, offset, limit, j);
    HonestGathered(L, maxLen, offset, limit, j + 1, limit * j + limit);
    KeepsReading(Honest(L), maxLen, offset, limit, j, r);
  }

  lemma HonestFullPageNext<T>(L: seq<T>, maxLen: Option<nat>, offset: int, limit: int, j: nat)
    requires limit > 0 && offset >= 0
    requires limit * j + limit < Remaining(|L|, maxLen, offset)
    ensures Response(Honest(L), maxLen, offset, limit, j).next.Some?
  {
    HonestFullPage(L, maxLen, offset, limit, j);
  }

  /** Before the goal is reached, `limit` items were gathered per batch. */
  lemma HonestGathered<T>(L: seq<T>, maxLen: Option<nat>, offset: int, limit: int, k: nat, e: int)
    requires limit > 0 && offset >= 0 && k > 0
    requires e == limit * (k - 1) + limit && e < Remaining(|L|, maxLen, offset)
    ensures |Fetched(Honest(L), maxLen, offset, limit, k)| == e
  {
    RemainingBounds(|L|, maxLen, offset);
    MulStep(limit, k - 1);
    HonestPrefix(L, maxLen, offset, limit, k);
  }

  /** A batch with a next page that leaves the count under `maxLen` does not stop the loop. */
  lemma KeepsReading<T>(fetch: (int, int) -> Page<T>, maxLen: Option<nat>, offset: int, limit: int, j: nat, m: int)
    requires Response(fetch, maxLen, offset, limit, j).next.Some?
    requires |Fetched(fetch, maxLen, offset, limit, j + 1)| < m
    requires maxLen.Some? ==> m <= maxLen.value
    ensures !StopsAfter(fetch, maxLen, offset, limit, j)
  {
  }

  /** An offset at or past the end of L gets one empty last page. */
  lemma HonestNothingLeft<T>(L: seq<T>, maxLen: Option<nat>, offset: int, limit: int)
    requires limit > 0 && offset >= |L|
    requires maxLen.None? || maxLen.value > 0
    ensures Response(Honest(L), maxLen, offset, limit, 0) == Page([], None)
  {
    var b := BatchLimit(maxLen, offset, limit, 0);
    assert b > 0;
    HonestAnswer(L, b, offset);
  }

  /** The window of the last page, with the arithmetic already done: it ends at the goal. */
  lemma LastWindow<T>(L: seq<T>, maxLen: Option<nat>, offset: int, limit: int, a: int, b: int, r: nat)
    requires 0 <= offset && 0 <= a < r <= a + limit
    requires r == Remaining(|L|, maxLen, offset)
    requires maxLen.None? ==> b == limit
    requires maxLen.Some? ==> b == Min(limit, maxLen.value - a)
    ensures offset + r <= |L|
    ensures Window(L, offset + a, b) == L[offset + a..offset + r]
    ensures offset + a + b < |L| ==> maxLen.Some? && r == maxLen.value
  {
    RemainingBounds(|L|, maxLen, offset);
  }

  /** The last page brings the count up to the goal and either has no next page or fills `maxLen`. */
  lemma HonestLastPage<T>(L: seq<T>, maxLen: Option<nat>, offset: int, limit: int, n: nat, r: nat)
    requires limit > 0 && offset >= 0
    requires r == Remaining(|L|, maxLen, offset) > 0
    requires n == HonestStop(|L|, maxLen, offset, limit)
    ensures limit * n < r && offset + r <= |L|
    ensures Response(Honest(L), maxLen, offset, limit, n).items == L[offset + limit * n..offset + r]
    ensures Response(Honest(L), maxLen, offset, limit, n).next.None? || (maxLen.Some? && r == maxLen.value)
  {
    var a := limit * n;
    DivBounds(r, limit);
    MulStep(limit, n);
    var b := BatchLimit(maxLen, offset, limit, n);
    assert BatchOffset(offset, limit, n) == offset + a;
    LastWindow(L, maxLen, offset, limit, a, b, r);
    HonestAnswer(L, b, offset + a);
  }

  /** When something is left, the wanted stretch starts at `offset` and is `Remaining` long. */
  lemma WantedIsRemaining<T>(L: seq<T>, maxLen: Option<nat>, offset: int)
    requires offset >= 0
    ensures Remaining(|L|, maxLen, offset) == 0 ==> Wanted(L, maxLen, offset) == []
    ensures Remaining(|L|, maxLen, offset) > 0 ==>
      Wanted(L, maxLen, offset) == L[offset..offset + Remaining(|L|, maxLen, offset)]
  {
    RemainingBounds(|L|, maxLen, offset);
  }

  /** A last page that completes the stretch `L[offset .. offset + r]` and ends the loop. */
  lemma LastStep<T>(fetch: (int, int) -> Page<T>, L: seq<T>, maxLen: Option<nat>, offset: int, limit: int,
                    n: nat, a: int, r: nat)
    requires 0 <= offset && 0 <= a <= r && offset + r <= |L|
    requires Fetched(fetch, maxLen, offset, limit, n) == L[offset..offset + a]
    requires Response(fetch, maxLen, offset, limit, n).items == L[offset + a..offset + r]
    requires Response(fetch, maxLen, offset, limit, n).next.None? || (maxLen.Some? && r == maxLen.value)
    ensures Fetched(fetch, maxLen, offset, limit, n + 1) == L[offset..offset + r]
    ensures StopsAfter(fetch, maxLen, offset, limit, n)
  {
    var items := Response(fetch, maxLen, offset, limit, n).items;
    assert Fetched(fetch, maxLen, offset, limit, n + 1) == Fetched(fetch, maxLen, offset, limit, n) + items;
    SliceAppend(L, offset, offset + a, offset + r);
    assert |Fetched(fetch, maxLen, offset, limit, n + 1)| == r;
  }

  /** No batch before `HonestStop` ends the loop. */
  lemma HonestNoEarlyStop<T>(L: seq<T>, maxLen: Option<nat>, offset: int, limit: int, n: nat)
    requires limit > 0 && offset >= 0
    requires limit * n < Remaining(|L|, maxLen, offset)
    ensures forall k: nat :: k < n ==> !StopsAfter(Honest(L), maxLen, offset, limit, k)
  {
    forall k: nat | k < n ensures !StopsAfter(Honest(L), maxLen, offset, limit, k) {
      MulMono(limit, k + 1, n);
      MulStep(limit, k);
      HonestKeepsReading(L, maxLen, offset, limit, k);
    }
  }

  /** With something left to read, the loop stops at `HonestStop` having gathered the wanted stretch. */
  lemma HonestUpstreamSome<T>(L: seq<T>, maxLen: Option<nat>, offset: int, limit: int, n: nat, r: nat)
    requires limit > 0 && offset >= 0
    requires r == Remaining(|L|, maxLen, offset) > 0
    requires n == HonestStop(|L|, maxLen, offset, limit)
    ensures StopsAfter(Honest(L), maxLen, offset, limit, n)
    ensures Fetched(Honest(L), maxLen, offset, limit, n + 1) == L[offset..offset + r]
  {
    var a := limit * n;
    assert 0 <= a < r && offset + r <= |L|
      && Response(Honest(L), maxLen, offset, limit, n).items == L[offset + a..offset + r]
      && (Response(Honest(L), maxLen, offset, limit, n).next.None? || (maxLen.Some? && r == maxLen.value)) by {
      HonestLastPage(L, maxLen, offset, limit, n, r);
    }
    assert Fetched(Honest(L), maxLen, offset, limit, n) == L[offset..offset + a] by {
      HonestPrefix(L, maxLen, offset, limit, n);
    }
    LastStep(Honest(L), L, maxLen, offset, limit, n, a, r);
  }

  /** With nothing left to read, the first batch is empty and ends the loop. */
  lemma HonestUpstreamNone<T>(L: seq<T>, maxLen: Option<nat>, offset: int, limit: int)
    requires limit > 0 && offset >= 0
    requires maxLen.None? || maxLen.value > 0
    requires Remaining(|L|, maxLen, offset) == 0
    ensures StopsAfter(Honest(L), maxLen, offset, limit, 0)
    ensures Fetched(Honest(L), maxLen, offset, limit, 1) == []
  {
    RemainingBounds(|L|, maxLen, offset);
    HonestNothingLeft(L, maxLen, offset, limit);
  }

  /**
   * Against an honest upstream the loop stops, after batch `HonestStop` and
   * not before, having gathered exactly `L[offset : offset + max_len]`.
   */
  lemma HonestUpstream<T>(L: seq<T>, maxLen: Option<nat>, offset: int, limit: int)
    requires limit > 0 && offset >= 0
    requires maxLen.None? || maxLen.value > 0
    ensures var n := HonestStop(|L|, maxLen, offset, limit);
      StopsAfter(Honest(L), maxLen, offset, limit, n)
      && (forall k: nat :: k < n ==> !StopsAfter(Honest(L), maxLen, offset, limit, k))
      && Fetched(Honest(L), maxLen, offset, limit, n + 1) == Wanted(L, maxLen, offset)
  {
    var r := Remaining(|L|, maxLen, offset);
    var n := HonestStop(|L|, maxLen, offset, limit);
    WantedIsRemaining(L, maxLen, offset);
    if r == 0 {
      HonestUpstreamNone(L, maxLen, offset, limit);
    } else {
      HonestUpstreamSome(L, maxLen, offset, limit, n, r);
      DivBounds(r, limit);
      HonestNoEarlyStop(L, maxLen, offset, limit, n);
    }
  }

  /** What the loop returns against an honest upstream is `L[offset : offset + max_len]`. */
  lemma HonestRetrieved<T>(L: seq<T>, maxLen: Option<nat>, offset: int, limit: int)
    requires limit > 0 && offset >= 0
    requires maxLen.None? || maxLen.value > 0
    ensures StopsAfter(Honest(L), maxLen, offset, limit, HonestStop(|L|, maxLen, offset, limit))
    ensures Retrieved(Honest(L), maxLen, offset, limit, HonestStop(|L|, maxLen, offset, limit)) == Wanted(L, maxLen, offset)
  {
    var n := HonestStop(|L|, maxLen, offset, limit);
    HonestUpstream(L, maxLen, offset, limit);
    StopIsFirst(Honest(L), maxLen, offset, limit, n, n);
  }

  // ---------------------------------------------------------------------------
  // Properties of the id chunks.
  // ---------------------------------------------------------------------------

  /** The ids of the first `n` chunks, put back together. */
  function ChunksUpTo(ids: seq<string>, limit: int, n: nat): seq<string>
    requires limit > 0
  {
    if n == 0 then [] else ChunksUpTo(ids, limit, n - 1) + Chunk(ids, limit, n - 1)
  }

  lemma {:induction false} ChunksUpToPrefix(ids: seq<string>, limit: int, n: nat)
    requires limit > 0
    ensures ChunksUpTo(ids, limit, n) == ids[..Min(n * limit, |ids|)]
  {
    if n > 0 {
      ChunksUpToPrefix(ids, limit, n - 1);
      MulStep(limit, n - 1);
      MulMono(limit, n - 1, n);
      var lo := Min((n - 1) * limit, |ids|);
      var hi := Min(n * limit, |ids|);
      assert ids[..lo] + ids[lo..hi] == ids[..hi];
    }
  }

  /** The chunks, in order, give back the whole id list; an empty list gives no chunk at all. */
  lemma ChunksCoverIds(ids: seq<string>, limit: int)
    requires limit > 0
    ensures ChunksUpTo(ids, limit, NumBatches(|ids|, limit)) == ids
    ensures ids == [] <==> NumBatches(|ids|, limit) == 0
  {
    var n := NumBatches(|ids|, limit);
    ChunksUpToPrefix(ids, limit, n);
    assert ids[..|ids|] == ids;
  }

  /** Chunk i is `ids[i * limit .. min((i + 1) * limit, |ids|)]`: non-empty and at most `limit` long. */
  lemma ChunkShape(ids: seq<string>, limit: int, i: nat)
    requires limit > 0 && i < NumBatches(|ids|, limit)
    ensures i * limit < |ids|
    ensures Chunk(ids, limit, i) == ids[i * limit..Min((i + 1) * limit, |ids|)]
    ensures 0 < |Chunk(ids, limit, i)| <= limit
  {
    var n := NumBatches(|ids|, limit);
    MulMono(limit, i, n - 1);
    MulStep(limit, i);
  }

  /** `r` holds, position by position, the profile of each id in `p`. */
  predicate PerId(r: seq<ArtistProfile>, p: seq<string>, profileOf: string -> ArtistProfile)
  {
    |r| == |p| && forall j :: 0 <= j < |p| ==> r[j] == profileOf(p[j])
  }

  /** One profile per id, in order, survives concatenation. */
  lemma AppendPerId(r1: seq<ArtistProfile>, p1: seq<string>, r2: seq<ArtistProfile>, p2: seq<string>,
                    profileOf: string -> ArtistProfile)
    requires PerId(r1, p1, profileOf) && PerId(r2, p2, profileOf)
    ensures PerId(r1 + r2, p1 + p2, profileOf)
  {
    forall j | 0 <= j < |p1 + p2| ensures (r1 + r2)[j] == profileOf((p1 + p2)[j]) {
      if j >= |p1| {
        assert (r1 + r2)[j] == r2[j - |p1|];
        assert (p1 + p2)[j] == p2[j - |p1|];
      }
    }
  }

  /** An upstream that answers each chunk with one profile per id, in order, makes profile j that of ids[j]. */
  lemma {:induction false} ChunkResponsesPerId(
    lookup: seq<string> -> seq<ArtistProfile>, profileOf: string -> ArtistProfile,
    ids: seq<string>, limit: int, n: nat)
    requires limit > 0
    requires forall c :: PerId(lookup(c), c, profileOf)
    ensures PerId(ChunkResponses(lookup, ids, limit, n), ChunksUpTo(ids, limit, n), profileOf)
  {
    if n > 0 {
      ChunkResponsesPerId(lookup, profileOf, ids, limit, n - 1);
      var chunk := Chunk(ids, limit, n - 1);
      AppendPerId(ChunkResponses(lookup, ids, limit, n - 1), ChunksUpTo(ids, limit, n - 1), lookup(chunk), chunk, profileOf);
    }
  }

  lemma ArtistsFetchedPerId(
    lookup: seq<string> -> seq<ArtistProfile>, profileOf: string -> ArtistProfile,
    ids: seq<string>, limit: int)
    requires limit > 0
    requires forall c :: PerId(lookup(c), c, profileOf)
    ensures var r := ArtistsFetched(lookup, ids, limit);
      |r| == |ids| && forall j :: 0 <= j < |ids| ==> r[j] == profileOf(ids[j])
  {
    ChunkResponsesPerId(lookup, profileOf, ids, limit, NumBatches(|ids|, limit));
    ChunksCoverIds(ids, limit);
  }

  class SpotifyImporter {
    const sp: Client

    constructor (sp: Client)
      ensures this.sp == sp
    {
      this.sp := sp;
    }

    /**
     * `retrieve_albums`. Batch k asks for `BatchLimit` items at `BatchOffset`;
     * the loop ends after the first batch for which `StopsAfter` holds. An
     * upstream that always announces a next page without ever filling
     * `maxLen` keeps the source looping for ever, so the caller names a batch
     * `bound` at which the loop is known to stop.
     */
    method RetrieveAlbums(maxLen: Option<nat>, offset: int, limit: int, ghost bound: nat)
      returns (albums: seq<AlbumEntry>, ghost batches: nat)
      requires limit > 0
      requires maxLen.None? || maxLen.value > 0
      requires offset >= 0
      requires StopsAfter(sp.currentUserSavedAlbums, maxLen, offset, limit, bound)
      ensures 0 < batches <= bound + 1
      ensures albums == Fetched(sp.currentUserSavedAlbums, maxLen, offset, limit, batches)
      ensures StopsAfter(sp.currentUserSavedAlbums, maxLen, offset, limit, batches - 1)
      ensures forall k: nat :: k < batches - 1 ==> !StopsAfter(sp.currentUserSavedAlbums, maxLen, offset, limit, k)
      ensures albums == Retrieved(sp.currentUserSavedAlbums, maxLen, offset, limit, bound)
    {
      ghost var fetch := sp.currentUserSavedAlbums;
      albums := [];
      var counter: nat := 0;
      var reading := true;
      while reading
        invariant reading ==> counter <= bound
        invariant !reading ==> 0 < counter <= bound + 1
        invariant albums == Fetched(fetch, maxLen, offset, limit, counter)
        invariant reading ==> forall k: nat :: k < counter ==> !StopsAfter(fetch, maxLen, offset, limit, k)
        invariant !reading ==> forall k: nat :: k < counter - 1 ==> !StopsAfter(fetch, maxLen, offset, limit, k)
        invariant !reading ==> StopsAfter(fetch, maxLen, offset, limit, counter - 1)
        decreases if reading then bound + 1 - counter else 0
      {
        var batchNum := counter;
        counter := counter + 1;
        var batchOffset := offset + limit * batchNum;
        var batchLimit := match maxLen
          case None => limit
          case Some(m) => Min(limit, m + offset - batchOffset);
        assert batchOffset == BatchOffset(offset, limit, batchNum);
        assert batchLimit == BatchLimit(maxLen, offset, limit, batchNum);
        var response := sp.currentUserSavedAlbums(batchLimit, batchOffset);
        assert response == Response(fetch, maxLen, offset, limit, batchNum);
        assert Fetched(fetch, maxLen, offset, limit, counter) == albums + response.items;
        albums := albums + response.items;
        if response.next.None? || (maxLen.Some? && |albums| >= maxLen.value) {
          reading := false;
        }
      }
      batches := counter;
      StopIsFirst(fetch, maxLen, offset, limit, bound, batches - 1);
    }

    /**
     * `retrieve_artists_by_id`: look the ids up chunk by chunk and concatenate
     * the answers in chunk order. `limit == 0` divides by zero in the source.
     */
    method RetrieveArtistsById(ids: seq<string>, limit: int) returns (artists: seq<ArtistProfile>)
      requires limit != 0
      ensures artists == ArtistsFetched(sp.artists, ids, limit)
      ensures limit > 0 && ids == [] ==> artists == []
    {
      artists := [];
      var nbatches := NumBatches(|ids|, limit);
      if limit < 0 {
        return;
      }
      for i := 0 to nbatches
        invariant artists == ChunkResponses(sp.artists, ids, limit, i)
      {
        ChunkStart(limit, i);
        var lo := Min(i * limit, |ids|);
        var hi := Min((i + 1) * limit, |ids|);
        var response := sp.artists(ids[lo..hi]);
        artists := artists + response;
      }
    }
  }
}
