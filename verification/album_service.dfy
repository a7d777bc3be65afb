/**
 * The business service: input guards that run before any repository call,
 * then delegation to the repository it is given (here the caching
 * decorator). UpdateAlbum reads the existing record first and carries its
 * creation time forward.
 */
module Service {
  import opened Domain
  import opened CacheBackend
  import opened CachedRepository
  import Mem = MemoryRepository

  /** An id-scoped operation needs an identifier. */
  function CheckId(id: string): (e: Option<Error>)
    ensures e.None? <==> id != ""
    ensures e.Some? ==> e.value.Invalid?
  {
    if id == "" then Some(Invalid("id cannot be empty")) else None
  }

  /** An artist-scoped query needs an artist. */
  function CheckArtist(artist: string): (e: Option<Error>)
    ensures e.None? <==> artist != ""
    ensures e.Some? ==> e.value.Invalid?
  {
    if artist == "" then Some(Invalid("artist cannot be empty")) else None
  }

  /** CreateAlbum's guards, in order: the title, then the price. */
  function CheckNewAlbum(a: Album): (e: Option<Error>)
    ensures e.None? <==> a.title != "" && a.price >= 0.0
    ensures a.title == "" ==> e == Some(Invalid("title cannot be empty"))
    ensures a.title != "" && a.price < 0.0 ==> e == Some(Invalid("price cannot be negative"))
  {
    if a.title == "" then Some(Invalid("title cannot be empty"))
    else if a.price < 0.0 then Some(Invalid("price cannot be negative"))
    else None
  }

  /** UpdateAlbum's guards, in order: the identifier, then CreateAlbum's guards. */
  function CheckChangedAlbum(a: Album): (e: Option<Error>)
    ensures e.None? <==> a.id != "" && a.title != "" && a.price >= 0.0
    ensures a.id == "" ==> e == Some(Invalid("id cannot be empty"))
    ensures a.id != "" ==> e == CheckNewAlbum(a)
  {
    if a.id == "" then Some(Invalid("id cannot be empty")) else CheckNewAlbum(a)
  }

  /**
   * What UpdateAlbum hands to the repository once the existing record has
   * been read: the caller's album with the existing CreatedAt, or the
   * wrapped error of the read.
   */
  function PrepareUpdate(album: Album, existing: Result<Album>): (r: Result<Album>)
    ensures r.Ok? <==> existing.Ok?
    ensures r.Err? ==> r.error == Wrapped("album not found", existing.error)
    ensures r.Ok? ==> r.value.createdAt == existing.value.createdAt
    ensures r.Ok? ==> r.value.(createdAt := album.createdAt) == album
  {
    if existing.Err? then Err(Wrapped("album not found", existing.error))
    else Ok(album.(createdAt := existing.value.createdAt))
  }

  // What each service operation answers and leaves behind, over the
  // caching decorator wrapping the in-memory store.

  function GetAlbumByIdRun(st: State, id: string, now: int, f: CacheFaults): Run<Result<Album>>
  {
    match CheckId(id)
    case Some(e) => Run(Err(e), st)
    case None => GetByIdRun(st, id, now, f)
  }

  function CreateAlbumRun(st: State, album: Album, freshId: string, now: int, f: CacheFaults): Run<Result<Album>>
  {
    match CheckNewAlbum(album)
    case Some(e) => Run(Err(e), st)
    case None => CreateRun(st, album, freshId, now, f)
  }

  /**
   * `pre` are the cache faults of the pre-read through the decorator and `f`
   * those of the update: the two make independent cache calls.
   */
  function UpdateAlbumRun(st: State, album: Album, now: int, pre: CacheFaults, f: CacheFaults): Run<Result<Album>>
  {
    match CheckChangedAlbum(album)
    case Some(e) => Run(Err(e), st)
    case None =>
      var read := GetByIdRun(st, album.id, now, pre);
      match PrepareUpdate(album, read.result)
      case Err(e) => Run(Err(e), read.post)
      case Ok(sent) => UpdateRun(read.post, sent, now, f)
  }

  function DeleteAlbumRun(st: State, id: string, now: int, f: CacheFaults): Run<Status>
  {
    match CheckId(id)
    case Some(e) => Run(Failed(e), st)
    case None => DeleteRun(st, id, now, f)
  }

  function GetAlbumsByArtistRun(st: State, artist: string, now: int, f: CacheFaults): Run<Result<seq<Album>>>
  {
    match CheckArtist(artist)
    case Some(e) => Run(Err(e), st)
    case None => GetByArtistRun(st, artist, now, f)
  }

  /** Rejected input never reaches the repository: store and cache are left as they were. */
  lemma GuardsPrecedeRepository(st: State, id: string, artist: string, album: Album, freshId: string,
                                now: int, pre: CacheFaults, f: CacheFaults)
    ensures id == "" ==> GetAlbumByIdRun(st, id, now, f) == Run(Err(Invalid("id cannot be empty")), st)
    ensures id == "" ==> DeleteAlbumRun(st, id, now, f) == Run(Failed(Invalid("id cannot be empty")), st)
    ensures artist == "" ==> GetAlbumsByArtistRun(st, artist, now, f) == Run(Err(Invalid("artist cannot be empty")), st)
    ensures CheckNewAlbum(album).Some? ==>
      CreateAlbumRun(st, album, freshId, now, f) == Run(Err(CheckNewAlbum(album).value), st)
    ensures CheckChangedAlbum(album).Some? ==>
      UpdateAlbumRun(st, album, now, pre, f) == Run(Err(CheckChangedAlbum(album).value), st)
  {
  }

  /**
   * When the existing record cannot be read, UpdateAlbum fails with the
   * wrapped error and the store is not written.
   */
  lemma UpdateAlbumNeedsExistingRecord(st: State, album: Album, now: int, pre: CacheFaults, f: CacheFaults)
    requires CheckChangedAlbum(album).None?
    requires GetByIdRun(st, album.id, now, pre).result.Err?
    ensures var u := UpdateAlbumRun(st, album, now, pre, f);
      u.result == Err(Wrapped("album not found", GetByIdRun(st, album.id, now, pre).result.error))
      && u.post == st
  {
  }

  /**
   * A valid update of a stored album succeeds, and the stored record is the
   * caller's album with the original CreatedAt and UpdatedAt set to now.
   */
  lemma UpdateAlbumOfStoredAlbum(st: State, album: Album, now: int, pre: CacheFaults, f: CacheFaults)
    requires CheckChangedAlbum(album).None?
    requires HasId(st.albums, album.id)
    ensures var u := UpdateAlbumRun(st, album, now, pre, f);
      var i := Mem.IndexOf(st.albums, album.id).value;
      u.result == Ok(album.(createdAt := st.albums[i].createdAt, updatedAt := now))
      && u.post.albums == st.albums[i := u.result.value]
  {
  }

  /**
   * The pre-read and the update's invalidation are separate cache calls: when
   * the pre-read caches the stored album and the update's DEL of its by-id
   * key then fails, the pre-update record is served by id for 300 seconds
   * although the store holds the new one.
   */
  lemma UpdateCanLeaveStaleById(st: State, album: Album, now: int, pre: CacheFaults, f: CacheFaults,
                                later: int, g: CacheFaults)
    requires CheckChangedAlbum(album).None?
    requires HasId(st.albums, album.id)
    requires CacheKey(Id, album.id) !in st.entries
    requires CacheKey(Id, album.id) !in pre.writeFails
    requires CacheKey(Id, album.id) in f.writeFails
    requires now <= later < now + 300 && !g.readFails
    ensures var u := UpdateAlbumRun(st, album, now, pre, f);
      var i := Mem.IndexOf(st.albums, album.id).value;
      && u.result.Ok?
      && u.post.albums[i] == u.result.value
      && GetByIdRun(u.post, album.id, later, g).result == Ok(st.albums[i])
  {
    var key := CacheKey(Id, album.id);
    var i := Mem.IndexOf(st.albums, album.id).value;
    var r := GetByIdRun(st, album.id, now, pre);
    ApplyAllSnoc(st.entries, [], Put(key, EncodeAlbum(st.albums[i]), 300), now, pre.writeFails);
    assert r.post.entries == st.entries[key := Entry(EncodeAlbum(st.albums[i]), Some(now + 300))];
    var sent := album.(createdAt := st.albums[i].createdAt);
    var u := UpdateRun(r.post, sent, now, f);
    var before := Mem.FindById(r.post.albums, sent.id);
    UpdateInvalidatesExactly(r.post.entries, sent, before, u.result.value, now, f.writeFails);
    assert u.post.entries[key] == Entry(EncodeAlbum(st.albums[i]), Some(now + 300));
  }

  /** The service object, written against the caching decorator it is given. */
  class AlbumService {
    const repo: CachedAlbumRepository

    constructor (repo: CachedAlbumRepository)
      ensures this.repo == repo
    {
      this.repo := repo;
    }

    method GetAllAlbums(now: int, f: CacheFaults) returns (r: Result<seq<Album>>)
      modifies repo.cache
      ensures var run := GetAllRun(old(repo.Current()), now, f);
        r == run.result && repo.Current() == run.post
    {
      r := repo.GetAll(now, f);
    }

    method GetAlbumByID(id: string, now: int, f: CacheFaults) returns (r: Result<Album>)
      modifies repo.cache
      ensures var run := GetAlbumByIdRun(old(repo.Current()), id, now, f);
        r == run.result && repo.Current() == run.post
    {
      if id == "" {
        return Err(Invalid("id cannot be empty"));
      }
      r := repo.GetByID(id, now, f);
    }

    /** `freshId` is the identifier the store will generate. */
    method CreateAlbum(album: Album, freshId: string, now: int, f: CacheFaults) returns (r: Result<Album>)
      modifies repo.repo, repo.cache
      ensures var run := CreateAlbumRun(old(repo.Current()), album, freshId, now, f);
        r == run.result && repo.Current() == run.post
    {
      if album.title == "" {
        return Err(Invalid("title cannot be empty"));
      }
      if album.price < 0.0 {
        return Err(Invalid("price cannot be negative"));
      }
      r := repo.Create(album, freshId, now, f);
    }

    /**
     * Returns the caller's album as the store wrote it; `pre` and `f` are the
     * cache faults of the pre-read and of the update.
     */
    method UpdateAlbum(album: Album, now: int, pre: CacheFaults, f: CacheFaults) returns (r: Result<Album>)
      modifies repo.repo, repo.cache
      ensures var run := UpdateAlbumRun(old(repo.Current()), album, now, pre, f);
        r == run.result && repo.Current() == run.post
    {
      if album.id == "" {
        return Err(Invalid("id cannot be empty"));
      }
      if album.title == "" {
        return Err(Invalid("title cannot be empty"));
      }
      if album.price < 0.0 {
        return Err(Invalid("price cannot be negative"));
      }
      var existing := repo.GetByID(album.id, now, pre);
      if existing.Err? {
        return Err(Wrapped("album not found", existing.error));
      }
      var sent := album.(createdAt := existing.value.createdAt);
      r := repo.Update(sent, now, f);
    }

    method DeleteAlbum(id: string, now: int, f: CacheFaults) returns (r: Status)
      modifies repo.repo, repo.cache
      ensures var run := DeleteAlbumRun(old(repo.Current()), id, now, f);
        r == run.result && repo.Current() == run.post
    {
      if id == "" {
        return Failed(Invalid("id cannot be empty"));
      }
      r := repo.Delete(id, now, f);
    }

    method GetAlbumsByArtist(artist: string, now: int, f: CacheFaults) returns (r: Result<seq<Album>>)
      modifies repo.cache
      ensures var run := GetAlbumsByArtistRun(old(repo.Current()), artist, now, f);
        r == run.result && repo.Current() == run.post
    {
      if artist == "" {
        return Err(Invalid("artist cannot be empty"));
      }
      r := repo.GetByArtist(artist, now, f);
    }

    method GetAlbumsInStock(now: int, f: CacheFaults) returns (r: Result<seq<Album>>)
      modifies repo.cache
      ensures var run := GetInStockRun(old(repo.Current()), now, f);
        r == run.result && repo.Current() == run.post
    {
      r := repo.GetInStock(now, f);
    }
  }
}
