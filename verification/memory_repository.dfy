/**
 * The in-memory album store: a slice of albums searched linearly, with
 * in-place replacement, order-preserving deletion and filtering queries.
 * The specification functions say what each operation returns and what the
 * collection becomes; the class MemoryAlbumRepository performs them step by
 * step and is proved against them.
 */
module MemoryRepository {
  import opened Domain

  /** Position of the first album carrying `id`, scanning in stored order. */
  function IndexOf(s: seq<Album>, id: string): (r: Option<nat>)
    ensures r.Some? ==> r.value < |s| && s[r.value].id == id
    ensures r.Some? ==> forall j :: 0 <= j < r.value ==> s[j].id != id
    ensures r.None? <==> !HasId(s, id)
  {
    if |s| == 0 then None
    else if s[0].id == id then Some(0)
    else match IndexOf(s[1..], id)
      case None =>
        assert forall j :: 1 <= j < |s| ==> s[j] == s[1..][j - 1];
        None
      case Some(k) => Some(k + 1)
  }

  /** What a lookup by identifier answers: the first match, or not-found. */
  function FindById(s: seq<Album>, id: string): (r: Result<Album>)
    ensures r.Ok? <==> HasId(s, id)
    ensures r.Ok? ==> r.value.id == id && r.value in s
    ensures r.Ok? ==> exists i :: 0 <= i < |s| && s[i] == r.value && forall j :: 0 <= j < i ==> s[j].id != id
    ensures r.Err? ==> r.error == NotFound("album not found")
  {
    match IndexOf(s, id)
    case Some(i) => Ok(s[i])
    case None => Err(NotFound("album not found"))
  }

  /** The two filtering queries of the store. */
  datatype Query = ByArtist(artist: string) | InStock

  predicate Matches(a: Album, q: Query)
  {
    match q
    case ByArtist(artist) => a.artist == artist
    case InStock => a.inStock
  }

  /** The albums of `s` that match `q`, in stored order. */
  function Select(s: seq<Album>, q: Query): seq<Album>
  {
    if s == [] then []
    else (if Matches(s[0], q) then [s[0]] else []) + Select(s[1..], q)
  }

  lemma {:induction false} SelectAppend(s: seq<Album>, t: seq<Album>, q: Query)
    ensures Select(s + t, q) == Select(s, q) + Select(t, q)
  {
    if s == [] {
      assert s + t == t;
    } else {
      assert (s + t)[1..] == s[1..] + t;
      SelectAppend(s[1..], t, q);
    }
  }

  /** Selecting keeps exactly the matching albums: each as often as it is stored. */
  lemma {:induction false} SelectCount(s: seq<Album>, q: Query, a: Album)
    ensures multiset(Select(s, q))[a] == if Matches(a, q) then multiset(s)[a] else 0
  {
    if s != [] {
      SelectCount(s[1..], q, a);
      assert s == [s[0]] + s[1..];
      assert multiset(s) == multiset([s[0]]) + multiset(s[1..]);
    }
  }

  lemma SelectMembership(s: seq<Album>, q: Query, a: Album)
    ensures a in Select(s, q) <==> a in s && Matches(a, q)
  {
    SelectCount(s, q, a);
    assert a in Select(s, q) <==> multiset(Select(s, q))[a] > 0;
    assert a in s <==> multiset(s)[a] > 0;
  }

  /** Selecting never reorders: the first match heads the result. */
  lemma {:induction false} SelectOrder(s: seq<Album>, q: Query, i: nat)
    requires i < |s| && Matches(s[i], q)
    requires forall j :: 0 <= j < i ==> !Matches(s[j], q)
    ensures |Select(s, q)| > 0 && Select(s, q)[0] == s[i]
  {
    if i > 0 {
      SelectOrder(s[1..], q, i - 1);
    }
  }

  /** What a query by artist answers: an error when nothing matches. */
  function ArtistQuery(s: seq<Album>, artist: string): (r: Result<seq<Album>>)
    ensures r.Err? <==> forall a :: a in s ==> a.artist != artist
    ensures r.Ok? ==> forall a :: a in r.value <==> a in s && a.artist == artist
    ensures r.Ok? ==> r.value == Select(s, ByArtist(artist))
  {
    var found := Select(s, ByArtist(artist));
    forall a ensures a in found <==> a in s && a.artist == artist {
      SelectMembership(s, ByArtist(artist), a);
    }
    assert found != [] ==> found[0] in found;
    if found == [] then Err(NotFound("no albums found for artist " + artist)) else Ok(found)
  }

  /** A store operation's answer together with the collection it leaves. */
  datatype Mutation<T> = Mutation(result: T, albums: seq<Album>)

  /** The album as stored by Create: fresh identifier, both timestamps set to now. */
  function Stamped(album: Album, freshId: string, now: int): (a: Album)
    ensures a.id == freshId && a.createdAt == now && a.updatedAt == now
    ensures a.(id := album.id, createdAt := album.createdAt, updatedAt := album.updatedAt) == album
  {
    album.(id := freshId, createdAt := now, updatedAt := now)
  }

  /** Update: the first album with the same identifier is overwritten by the input, keeping its CreatedAt. */
  function UpdateApplied(s: seq<Album>, album: Album, now: int): (m: Mutation<Result<Album>>)
    ensures m.result.Err? <==> !HasId(s, album.id)
    ensures m.result.Err? ==> m.albums == s && m.result.error == NotFound("album with ID " + album.id + " not found")
    ensures m.result.Ok? ==>
      var i := IndexOf(s, album.id).value;
      && m.result.value == album.(createdAt := s[i].createdAt, updatedAt := now)
      && |m.albums| == |s| && m.albums[i] == m.result.value
      && forall j :: 0 <= j < |s| && j != i ==> m.albums[j] == s[j]
  {
    match IndexOf(s, album.id)
    case None => Mutation(Err(NotFound("album with ID " + album.id + " not found")), s)
    case Some(i) =>
      var stored := album.(createdAt := s[i].createdAt, updatedAt := now);
      Mutation(Ok(stored), s[i := stored])
  }

  /** Delete: the first album with the identifier is spliced out, the rest keep their order. */
  function DeleteApplied(s: seq<Album>, id: string): (m: Mutation<Status>)
    ensures m.result.Failed? <==> !HasId(s, id)
    ensures m.result.Failed? ==> m.albums == s && m.result.error == NotFound("album with ID " + id + " not found")
    ensures m.result.Done? ==>
      var i := IndexOf(s, id).value;
      && |m.albums| == |s| - 1
      && (forall j :: 0 <= j < i ==> m.albums[j] == s[j])
      && (forall j :: i <= j < |m.albums| ==> m.albums[j] == s[j + 1])
      && multiset(m.albums) + multiset{s[i]} == multiset(s)
  {
    match IndexOf(s, id)
    case None => Mutation(Failed(NotFound("album with ID " + id + " not found")), s)
    case Some(i) =>
      assert s == s[..i] + [s[i]] + s[i + 1..];
      Mutation(Done, s[..i] + s[i + 1..])
  }

  /** Creating with an identifier nobody holds keeps identifiers unique. */
  lemma CreateKeepsIdsUnique(s: seq<Album>, album: Album, freshId: string, now: int)
    requires UniqueIds(s) && !HasId(s, freshId)
    ensures UniqueIds(s + [Stamped(album, freshId, now)])
  {
    var t := s + [Stamped(album, freshId, now)];
    forall i, j | 0 <= i < j < |t| ensures t[i].id != t[j].id {
      if j == |s| {
        assert t[i] == s[i];
      }
    }
  }

  lemma UpdateKeepsIdsUnique(s: seq<Album>, album: Album, now: int)
    requires UniqueIds(s)
    ensures UniqueIds(UpdateApplied(s, album, now).albums)
  {
    var m := UpdateApplied(s, album, now);
    if m.result.Ok? {
      var k := IndexOf(s, album.id).value;
      forall i, j | 0 <= i < j < |m.albums| ensures m.albums[i].id != m.albums[j].id {
        assert m.albums[i].id == s[i].id && m.albums[j].id == s[j].id;
      }
    }
  }

  lemma DeleteKeepsIdsUnique(s: seq<Album>, id: string)
    requires UniqueIds(s)
    ensures UniqueIds(DeleteApplied(s, id).albums)
  {
    var m := DeleteApplied(s, id);
    if m.result.Done? {
      var k := IndexOf(s, id).value;
      forall i, j | 0 <= i < j < |m.albums| ensures m.albums[i].id != m.albums[j].id {
        var i' := if i < k then i else i + 1;
        var j' := if j < k then j else j + 1;
        assert m.albums[i] == s[i'] && m.albums[j] == s[j'];
      }
    }
  }

  /** With unique identifiers, a deleted album can no longer be found. */
  lemma DeleteThenNotFound(s: seq<Album>, id: string)
    requires UniqueIds(s) && DeleteApplied(s, id).result.Done?
    ensures FindById(DeleteApplied(s, id).albums, id).Err?
  {
    var m := DeleteApplied(s, id);
    var k := IndexOf(s, id).value;
    forall i | 0 <= i < |m.albums| ensures m.albums[i].id != id {
      var i' := if i < k then i else i + 1;
      assert m.albums[i] == s[i'] && i' != k;
    }
  }

  /** A freshly created album is what a lookup by its identifier finds. */
  lemma CreateThenFound(s: seq<Album>, album: Album, freshId: string, now: int)
    requires !HasId(s, freshId)
    ensures FindById(s + [Stamped(album, freshId, now)], freshId) == Ok(Stamped(album, freshId, now))
  {
    var t := s + [Stamped(album, freshId, now)];
    assert t[|s|].id == freshId;
    var r := FindById(t, freshId);
    assert r.Ok?;
  }

  /** The album the store is seeded with. */
  function SeedAlbum(now: int): Album
  {
    Album("1", "Blue Train", "John Coltrane", 56.99, 1957, "Hard Bop", "mint", true, now, now)
  }

  /**
   * The store object. The slice of albums is the only state; the
   * reader/writer lock of the original is a concurrency concern and is not
   * modelled.
   */
  class MemoryAlbumRepository {
    var albums: seq<Album>

    constructor (now: int)
      ensures albums == [SeedAlbum(now)]
    {
      albums := [SeedAlbum(now)];
    }

    method GetAll() returns (r: Result<seq<Album>>)
      ensures r == Ok(albums)
    {
      r := Ok(albums);
    }

    method GetByID(id: string) returns (r: Result<Album>)
      ensures r == FindById(albums, id)
    {
      var i := 0;
      while i < |albums|
        invariant 0 <= i <= |albums|
        invariant forall j :: 0 <= j < i ==> albums[j].id != id
      {
        if albums[i].id == id {
          return Ok(albums[i]);
        }
        i := i + 1;
      }
      return Err(NotFound("album not found"));
    }

    /** Stores the album under `freshId` (the generated identifier) at clock `now`; returns the album as stored. */
    method Create(album: Album, freshId: string, now: int) returns (created: Album)
      modifies this
      ensures created == Stamped(album, freshId, now)
      ensures albums == old(albums) + [created]
    {
      created := Stamped(album, freshId, now);
      albums := albums + [created];
    }

    /** Returns the album as written (the caller's record with its timestamps refreshed). */
    method Update(album: Album, now: int) returns (r: Result<Album>)
      modifies this
      ensures r == UpdateApplied(old(albums), album, now).result
      ensures albums == UpdateApplied(old(albums), album, now).albums
    {
      var i := 0;
      while i < |albums|
        invariant 0 <= i <= |albums|
        invariant forall j :: 0 <= j < i ==> albums[j].id != album.id
      {
        if albums[i].id == album.id {
          var stored := album.(createdAt := albums[i].createdAt, updatedAt := now);
          albums := albums[i := stored];
          return Ok(stored);
        }
        i := i + 1;
      }
      return Err(NotFound("album with ID " + album.id + " not found"));
    }

    method Delete(id: string) returns (r: Status)
      modifies this
      ensures r == DeleteApplied(old(albums), id).result
      ensures albums == DeleteApplied(old(albums), id).albums
    {
      var i := 0;
      while i < |albums|
        invariant 0 <= i <= |albums|
        invariant forall j :: 0 <= j < i ==> albums[j].id != id
      {
        if albums[i].id == id {
          albums := albums[..i] + albums[i + 1..];
          return Done;
        }
        i := i + 1;
      }
      return Failed(NotFound("album with ID " + id + " not found"));
    }

    method GetByArtist(artist: string) returns (r: Result<seq<Album>>)
      ensures r == ArtistQuery(albums, artist)
    {
      var found: seq<Album> := [];
      var i := 0;
      while i < |albums|
        invariant 0 <= i <= |albums|
        invariant found == Select(albums[..i], ByArtist(artist))
      {
        assert albums[..i + 1] == albums[..i] + [albums[i]];
        SelectAppend(albums[..i], [albums[i]], ByArtist(artist));
        if albums[i].artist == artist {
          found := found + [albums[i]];
        }
        i := i + 1;
      }
      assert albums[..i] == albums;
      if |found| == 0 {
        return Err(NotFound("no albums found for artist " + artist));
      }
      return Ok(found);
    }

    /** Never fails; the list may be empty. */
    method GetInStock() returns (r: Result<seq<Album>>)
      ensures r == Ok(Select(albums, InStock))
    {
      var found: seq<Album> := [];
      var i := 0;
      while i < |albums|
        invariant 0 <= i <= |albums|
        invariant found == Select(albums[..i], InStock)
      {
        assert albums[..i + 1] == albums[..i] + [albums[i]];
        SelectAppend(albums[..i], [albums[i]], InStock);
        if albums[i].inStock {
          found := found + [albums[i]];
        }
        i := i + 1;
      }
      assert albums[..i] == albums;
      return Ok(found);
    }
  }
}
