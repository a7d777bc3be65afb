/**
 * The pagination step of the RPC GetAlbums handler: clamp the requested
 * offset into the list, cut a page of at most `limit` albums (0 meaning no
 * limit) and report the full count beside it.
 */
module Catalog {
  import opened Domain

  /** The handler's request fields are 32-bit signed integers. */
  newtype int32 = x: int | -0x8000_0000 <= x < 0x8000_0000

  /** Conversion of a count to int32, wrapping modulo 2^32 as the Go conversion does. */
  function ToInt32(n: nat): (r: int32)
    ensures n < 0x8000_0000 ==> r as int == n
  {
    ((n + 0x8000_0000) % 0x1_0000_0000 - 0x8000_0000) as int32
  }

  /** The page start: the offset clamped into [0, n]. */
  function PageStart(n: nat, offset: int32): (start: nat)
    ensures start <= n
    ensures 0 <= offset as int <= n ==> start == offset as int
    ensures offset < 0 ==> start == 0
    ensures offset as int > n ==> start == n
  {
    if offset < 0 then 0 else if offset as int > n then n else offset as int
  }

  /**
   * The page bounds exactly as the handler computes them, or None where its
   * slice expression would panic because the end falls before the start.
   */
  function PageBoundsAsWritten(n: nat, offset: int32, limit: int32): Option<(nat, nat)>
  {
    var start := PageStart(n, offset);
    var end := start + limit as int;
    var end := if end > n then n else end;
    var end := if limit == 0 then n else end;
    if start <= end then Some((start, end)) else None
  }

  /** The handler's bounds panic exactly when the limit is negative. */
  lemma NegativeLimitPanics(n: nat, offset: int32, limit: int32)
    ensures PageBoundsAsWritten(n, offset, limit).None? <==> limit < 0
  {
  }

  /** A concrete request that makes the handler panic: offset 0, limit -1, on any list. */
  lemma NegativeLimitWitness(n: nat)
    ensures PageBoundsAsWritten(n, 0, -1) == None
  {
    NegativeLimitPanics(n, 0, -1);
  }

  /**
   * The corrected bounds: the same as the handler's wherever it does not
   * panic, and an empty page at the start for a negative limit.
   */
  function PageBounds(n: nat, offset: int32, limit: int32): (b: (nat, nat))
    ensures b.0 == PageStart(n, offset)
    ensures b.0 <= b.1 <= n
    ensures limit == 0 ==> b.1 == n
    ensures limit > 0 ==> b.1 - b.0 == if limit as int < n - b.0 then limit as int else n - b.0
    ensures limit < 0 ==> b.1 == b.0
    ensures limit >= 0 ==> PageBoundsAsWritten(n, offset, limit) == Some(b)
  {
    var start := PageStart(n, offset);
    var end := start + limit as int;
    var end := if end > n then n else end;
    var end := if limit == 0 then n else end;
    var end := if end < start then start else end;
    (start, end)
  }

  /** The handler's reply: one page of albums and the size of the whole list. */
  datatype Page = Page(albums: seq<Album>, totalCount: int32)

  /**
   * GetAlbums over the service's answer: a service error is wrapped and no
   * page is produced; otherwise the page is a contiguous run of the list.
   * The handler formats the cause with %v, so only its text survives; the
   * model keeps the cause as `Flattened`, which unlike `Wrapped` is not a
   * chain callers could unwrap.
   */
  function GetAlbums(served: Result<seq<Album>>, offset: int32, limit: int32): (r: Result<Page>)
    ensures served.Err? ==> r == Err(Flattened("could not get albums", served.error))
    ensures served.Ok? ==> r.Ok?
    ensures served.Ok? && |served.value| < 0x8000_0000 ==> r.value.totalCount as int == |served.value|
    ensures served.Ok? ==>
      var start := PageStart(|served.value|, offset);
      && start + |r.value.albums| <= |served.value|
      && r.value.albums == served.value[start..start + |r.value.albums|]
    ensures served.Ok? && limit == 0 ==> r.value.albums == served.value[PageStart(|served.value|, offset)..]
    ensures served.Ok? && limit > 0 ==>
      var rest := |served.value| - PageStart(|served.value|, offset);
      |r.value.albums| == if limit as int < rest then limit as int else rest
    ensures served.Ok? && limit < 0 ==> r.value.albums == []
  {
    match served
    case Err(e) => Err(Flattened("could not get albums", e))
    case Ok(all) =>
      var (start, end) := PageBounds(|all|, offset, limit);
      Ok(Page(all[start..end], ToInt32(|all|)))
  }

  /** With no limit and no offset the page is the whole list. */
  lemma FirstUnlimitedPageIsEverything(all: seq<Album>)
    ensures GetAlbums(Ok(all), 0, 0) == Ok(Page(all, ToInt32(|all|)))
  {
  }

  /** Consecutive pages tile the list: the page at offset o followed by the page at o + limit. */
  lemma PagesTile(all: seq<Album>, offset: int32, limit: int32)
    requires 0 <= offset && 0 < limit
    requires offset as int + limit as int < 0x8000_0000
    requires offset as int + limit as int <= |all|
    ensures var p1 := GetAlbums(Ok(all), offset, limit).value.albums;
      var p2 := GetAlbums(Ok(all), (offset as int + limit as int) as int32, limit).value.albums;
      all[offset..] == p1 + p2 + all[offset as int + |p1| + |p2|..]
  {
    var p1 := GetAlbums(Ok(all), offset, limit).value.albums;
    var o2 := (offset as int + limit as int) as int32;
    var p2 := GetAlbums(Ok(all), o2, limit).value.albums;
    assert p1 == all[offset..o2];
    var b2 := PageBounds(|all|, o2, limit);
    assert p2 == all[o2..b2.1];
    assert all[offset..] == all[offset..o2] + all[o2..b2.1] + all[b2.1..];
  }
}
