/**
 * The caching decorator: a read-through, write-invalidate cache in front of
 * an album store.
 *
 * The decisions are stated twice over. The abstract layer (ReadThrough and
 * the *Effects functions) takes the wrapped store's reply as a parameter, so
 * what it proves holds whatever store is wrapped. The concrete layer (*Run
 * functions and the class CachedAlbumRepository) composes it with the
 * in-memory store and the cache backend. Background work after a store
 * call is a sequence of cache writes applied when the call returns.
 */
module CachedRepository {
  import opened Domain
  import opened CacheBackend
  import Mem = MemoryRepository

  /** The query shapes that have cache entries. */
  datatype Category = All | Id | Artist | Stock

  function Tag(c: Category): string
  {
    match c
    case All => "all"
    case Id => "id"
    case Artist => "artist"
    case Stock => "stock"
  }

  /** generateCacheKey: "album:" + category + ":" + discriminator. */
  function CacheKey(c: Category, discriminator: string): string
  {
    "album:" + Tag(c) + ":" + discriminator
  }

  /** Two colon-free heads joined to tails by a colon split back uniquely. */
  lemma SplitAtColon(t1: string, d1: string, t2: string, d2: string)
    requires ':' !in t1 && ':' !in t2
    requires t1 + ":" + d1 == t2 + ":" + d2
    ensures t1 == t2 && d1 == d2
  {
    var k := t1 + ":" + d1;
    assert k == t2 + ":" + d2;
    assert k[|t1|] == ':' && k[|t2|] == ':';
    assert forall i :: 0 <= i < |t1| ==> k[i] == t1[i] && k[i] != ':';
    assert forall i :: 0 <= i < |t2| ==> k[i] == t2[i] && k[i] != ':';
    assert |t1| == |t2|;
    assert t1 == k[..|t1|] && t2 == k[..|t2|];
    assert d1 == k[|t1| + 1..] && d2 == k[|t2| + 1..];
  }

  /** Distinct (category, discriminator) pairs never share a cache key. */
  lemma CacheKeyInjective(c1: Category, d1: string, c2: Category, d2: string)
    ensures CacheKey(c1, d1) == CacheKey(c2, d2) <==> c1 == c2 && d1 == d2
  {
    if CacheKey(c1, d1) == CacheKey(c2, d2) {
      var p := "album:";
      var k := CacheKey(c1, d1);
      assert k == p + (Tag(c1) + ":" + d1);
      assert k == p + (Tag(c2) + ":" + d2);
      assert Tag(c1) + ":" + d1 == k[|p|..] == Tag(c2) + ":" + d2;
      SplitAtColon(Tag(c1), d1, Tag(c2), d2);
    }
  }

  /** Time-to-live in seconds of each category's entries. */
  function Ttl(c: Category): nat
  {
    match c
    case All => 60
    case Id => 300
    case Artist => 120
    case Stock => 30
  }

  // ---------------------------------------------------------------------
  // Abstract layer: decisions, given what the wrapped store answers.
  // ---------------------------------------------------------------------

  /** A read's answer, whether the store was consulted, and the cache writes that follow. */
  datatype ReadStep<T> = ReadStep(result: Result<T>, storeCalled: bool, effects: seq<CacheOp>)

  /** The cached text the decorator sees: a backend error reads as the empty string. */
  function Cached(reply: Reply): Payload
  {
    if reply.ReadError? then Blank else reply.data
  }

  /**
   * One read-through: serve a cached value that decodes, otherwise ask the
   * store; a store error is returned as it is, a store answer is cached
   * under `key` for `ttl` seconds.
   */
  function ReadThrough<T>(key: string, ttl: nat, reply: Reply, decode: Payload -> Option<T>,
                          encode: T -> Payload, store: Result<T>): (o: ReadStep<T>)
    ensures o.storeCalled <==> Cached(reply) == Blank || decode(Cached(reply)).None?
    ensures !o.storeCalled ==> o.result == Ok(decode(Cached(reply)).value) && o.effects == []
    ensures o.storeCalled ==> o.result == store
    ensures reply.ReadError? ==> o.storeCalled && o.result == store
    ensures store.Err? ==> o.effects == []
    ensures o.effects != [] ==> store.Ok? && o.effects == [Put(key, encode(store.value), ttl)]
    ensures o.storeCalled && store.Ok? ==> o.effects != []
  {
    var data := Cached(reply);
    if data != Blank && decode(data).Some? then ReadStep(Ok(decode(data).value), false, [])
    else if store.Err? then ReadStep(store, true, [])
    else ReadStep(store, true, [Put(key, encode(store.value), ttl)])
  }

  /** On a hit the store's answer, whatever it is, makes no difference. */
  lemma HitIgnoresStore<T>(key: string, ttl: nat, reply: Reply, decode: Payload -> Option<T>,
                           encode: T -> Payload, s1: Result<T>, s2: Result<T>)
    requires Cached(reply) != Blank && decode(Cached(reply)).Some?
    ensures ReadThrough(key, ttl, reply, decode, encode, s1) == ReadThrough(key, ttl, reply, decode, encode, s2)
  {
  }

  function GetAllStep(reply: Reply, store: Result<seq<Album>>): ReadStep<seq<Album>>
  {
    ReadThrough(CacheKey(All, ""), Ttl(All), reply, DecodeList, EncodeList, store)
  }

  function GetByIdStep(id: string, reply: Reply, store: Result<Album>): ReadStep<Album>
  {
    ReadThrough(CacheKey(Id, id), Ttl(Id), reply, DecodeAlbum, EncodeAlbum, store)
  }

  function GetByArtistStep(artist: string, reply: Reply, store: Result<seq<Album>>): ReadStep<seq<Album>>
  {
    ReadThrough(CacheKey(Artist, artist), Ttl(Artist), reply, DecodeList, EncodeList, store)
  }

  function GetInStockStep(reply: Reply, store: Result<seq<Album>>): ReadStep<seq<Album>>
  {
    ReadThrough(CacheKey(Stock, ""), Ttl(Stock), reply, DecodeList, EncodeList, store)
  }

  /** The key each read caches under and for how long: 60 s, 300 s, 120 s, 30 s. */
  lemma ReadKeysAndTtls(reply: Reply, id: string, artist: string, list: seq<Album>, album: Album)
    requires !reply.ReadError? ==> Cached(reply) == Blank
    ensures GetAllStep(reply, Ok(list)).effects == [Put("album:all:", EncodeList(list), 60)]
    ensures GetByIdStep(id, reply, Ok(album)).effects == [Put("album:id:" + id, EncodeAlbum(album), 300)]
    ensures GetByArtistStep(artist, reply, Ok(list)).effects == [Put("album:artist:" + artist, EncodeList(list), 120)]
    ensures GetInStockStep(reply, Ok(list)).effects == [Put("album:stock:", EncodeList(list), 30)]
  {
    assert CacheKey(All, "") == "album:all:";
    assert CacheKey(Stock, "") == "album:stock:";
    assert CacheKey(Id, id) == "album:id:" + id;
    assert CacheKey(Artist, artist) == "album:artist:" + artist;
  }

  /** Keys a successful Update invalidates. */
  function UpdateKeys(album: Album, before: Result<Album>): set<string>
  {
    {CacheKey(Id, album.id), CacheKey(Artist, album.artist), CacheKey(Stock, "")}
      + (if before.Ok? then {CacheKey(Artist, before.value.artist)} else {})
  }

  /** Keys a successful Delete invalidates. */
  function DeleteKeys(id: string, before: Result<Album>): set<string>
  {
    {CacheKey(Id, id), CacheKey(Stock, "")}
      + (if before.Ok? then {CacheKey(Artist, before.value.artist)} else {})
  }

  /**
   * Cache writes after Create, given the store's answer (the album with its
   * assigned identifier): drop the artist and in-stock lists, pre-warm the
   * new album's by-id entry. The all-albums list is deliberately kept.
   */
  function CreateEffects(written: Result<Album>): (ops: seq<CacheOp>)
    ensures written.Err? ==> ops == []
    ensures written.Ok? ==>
      KeysOf(ops) == {CacheKey(Artist, written.value.artist), CacheKey(Stock, ""), CacheKey(Id, written.value.id)}
    ensures written.Ok? ==> ops[|ops| - 1] == Put(CacheKey(Id, written.value.id), EncodeAlbum(written.value), 300)
  {
    if written.Err? then []
    else
      var a := written.value;
      var ops := [Remove(CacheKey(Artist, a.artist)), Remove(CacheKey(Stock, "")),
                  Put(CacheKey(Id, a.id), EncodeAlbum(a), Ttl(Id))];
      assert ops[0] in ops && ops[1] in ops && ops[2] in ops;
      ops
  }

  /**
   * Cache writes after Update: drop the album's by-id entry, the old
   * artist's list (when the pre-read found the album), the new artist's
   * list and the in-stock list.
   */
  function UpdateEffects(album: Album, before: Result<Album>, written: Result<Album>): (ops: seq<CacheOp>)
    ensures written.Err? ==> ops == []
    ensures forall i :: 0 <= i < |ops| ==> ops[i].Remove?
    ensures written.Ok? ==> KeysOf(ops) == UpdateKeys(album, before)
  {
    if written.Err? then []
    else
      var ops := [Remove(CacheKey(Id, album.id))]
        + (if before.Ok? then [Remove(CacheKey(Artist, before.value.artist))] else [])
        + [Remove(CacheKey(Artist, album.artist)), Remove(CacheKey(Stock, ""))];
      assert forall op :: op in ops ==> op.key in UpdateKeys(album, before);
      assert ops[0] in ops && ops[|ops| - 1] in ops && ops[|ops| - 2] in ops;
      assert before.Ok? ==> ops[1] in ops && ops[1].key == CacheKey(Artist, before.value.artist);
      ops
  }

  /** Cache writes after Delete: drop the by-id entry, the artist's list (when read) and the in-stock list. */
  function DeleteEffects(id: string, before: Result<Album>, written: Status): (ops: seq<CacheOp>)
    ensures written.Failed? ==> ops == []
    ensures forall i :: 0 <= i < |ops| ==> ops[i].Remove?
    ensures written.Done? ==> KeysOf(ops) == DeleteKeys(id, before)
  {
    if written.Failed? then []
    else
      var ops := [Remove(CacheKey(Id, id))]
        + (if before.Ok? then [Remove(CacheKey(Artist, before.value.artist))] else [])
        + [Remove(CacheKey(Stock, ""))];
      assert forall op :: op in ops ==> op.key in DeleteKeys(id, before);
      assert ops[0] in ops && ops[|ops| - 1] in ops;
      assert before.Ok? ==> ops[1] in ops && ops[1].key == CacheKey(Artist, before.value.artist);
      ops
  }

  lemma ApplyAllSnoc(entries: map<string, Entry>, ops: seq<CacheOp>, op: CacheOp, now: int, fails: set<string>)
    ensures ApplyAll(entries, ops + [op], now, fails) == ApplyOp(ApplyAll(entries, ops, now, fails), op, now, op.key in fails)
  {
    assert (ops + [op])[..|ops|] == ops;
  }

  /** A successful Update removes exactly its keys (those whose DEL succeeds) and touches nothing else. */
  lemma UpdateInvalidatesExactly(entries: map<string, Entry>, album: Album, before: Result<Album>,
                                 written: Album, now: int, fails: set<string>)
    ensures ApplyAll(entries, UpdateEffects(album, before, Ok(written)), now, fails)
            == entries - (UpdateKeys(album, before) - fails)
  {
    ApplyRemovals(entries, UpdateEffects(album, before, Ok(written)), now, fails);
  }

  /** A successful Delete removes exactly its keys (those whose DEL succeeds) and touches nothing else. */
  lemma DeleteInvalidatesExactly(entries: map<string, Entry>, id: string, before: Result<Album>,
                                 now: int, fails: set<string>)
    ensures ApplyAll(entries, DeleteEffects(id, before, Done), now, fails)
            == entries - (DeleteKeys(id, before) - fails)
  {
    ApplyRemovals(entries, DeleteEffects(id, before, Done), now, fails);
  }

  /** A successful Create drops the artist and in-stock lists and stores the new album for 300 s. */
  lemma CreateCachesNewAlbum(entries: map<string, Entry>, a: Album, now: int, fails: set<string>)
    ensures var idKey := CacheKey(Id, a.id);
      var dropped := entries - ({CacheKey(Artist, a.artist), CacheKey(Stock, "")} - fails);
      ApplyAll(entries, CreateEffects(Ok(a)), now, fails)
        == if idKey in fails then dropped else dropped[idKey := Entry(EncodeAlbum(a), Some(now + 300))]
  {
    var ops := CreateEffects(Ok(a));
    var removals := ops[..2];
    assert ops == removals + [ops[2]];
    assert KeysOf(removals) == {CacheKey(Artist, a.artist), CacheKey(Stock, "")} by {
      assert removals[0] in removals && removals[1] in removals;
    }
    ApplyRemovals(entries, removals, now, fails);
    ApplyAllSnoc(entries, removals, ops[2], now, fails);
  }

  /** No write ever touches the all-albums entry. */
  lemma WritesKeepAllEntry(w: Result<Album>, album: Album, before: Result<Album>, written: Result<Album>,
                           id: string, deleted: Status)
    ensures CacheKey(All, "") !in KeysOf(CreateEffects(w))
    ensures CacheKey(All, "") !in KeysOf(UpdateEffects(album, before, written))
    ensures CacheKey(All, "") !in KeysOf(DeleteEffects(id, before, deleted))
  {
    CacheKeyInjective(All, "", Stock, "");
    CacheKeyInjective(All, "", Id, album.id);
    CacheKeyInjective(All, "", Artist, album.artist);
    CacheKeyInjective(All, "", Id, id);
    if w.Ok? {
      CacheKeyInjective(All, "", Id, w.value.id);
      CacheKeyInjective(All, "", Artist, w.value.artist);
    }
    if before.Ok? {
      CacheKeyInjective(All, "", Artist, before.value.artist);
    }
  }

  // ---------------------------------------------------------------------
  // Concrete layer: the decorator over the in-memory store.
  // ---------------------------------------------------------------------

  /** The store's albums and the cache's entries. */
  datatype State = State(albums: seq<Album>, entries: map<string, Entry>)

  /** An operation's answer and the state it leaves. */
  datatype Run<T> = Run(result: T, post: State)

  function Settle<T>(st: State, step: ReadStep<T>, now: int, f: CacheFaults): Run<Result<T>>
  {
    Run(step.result, State(st.albums, ApplyAll(st.entries, step.effects, now, f.writeFails)))
  }

  function GetAllRun(st: State, now: int, f: CacheFaults): Run<Result<seq<Album>>>
  {
    Settle(st, GetAllStep(Lookup(st.entries, CacheKey(All, ""), now, f.readFails), Ok(st.albums)), now, f)
  }

  function GetByIdRun(st: State, id: string, now: int, f: CacheFaults): Run<Result<Album>>
  {
    Settle(st, GetByIdStep(id, Lookup(st.entries, CacheKey(Id, id), now, f.readFails),
                           Mem.FindById(st.albums, id)), now, f)
  }

  function GetByArtistRun(st: State, artist: string, now: int, f: CacheFaults): Run<Result<seq<Album>>>
  {
    Settle(st, GetByArtistStep(artist, Lookup(st.entries, CacheKey(Artist, artist), now, f.readFails),
                               Mem.ArtistQuery(st.albums, artist)), now, f)
  }

  function GetInStockRun(st: State, now: int, f: CacheFaults): Run<Result<seq<Album>>>
  {
    Settle(st, GetInStockStep(Lookup(st.entries, CacheKey(Stock, ""), now, f.readFails),
                              Ok(Mem.Select(st.albums, Mem.InStock))), now, f)
  }

  function CreateRun(st: State, album: Album, freshId: string, now: int, f: CacheFaults): Run<Result<Album>>
  {
    var created := Mem.Stamped(album, freshId, now);
    Run(Ok(created), State(st.albums + [created],
                           ApplyAll(st.entries, CreateEffects(Ok(created)), now, f.writeFails)))
  }

  function UpdateRun(st: State, album: Album, now: int, f: CacheFaults): Run<Result<Album>>
  {
    var before := Mem.FindById(st.albums, album.id);
    var m := Mem.UpdateApplied(st.albums, album, now);
    Run(m.result, State(m.albums, ApplyAll(st.entries, UpdateEffects(album, before, m.result), now, f.writeFails)))
  }

  function DeleteRun(st: State, id: string, now: int, f: CacheFaults): Run<Status>
  {
    var before := Mem.FindById(st.albums, id);
    var m := Mem.DeleteApplied(st.albums, id);
    Run(m.result, State(m.albums, ApplyAll(st.entries, DeleteEffects(id, before, m.result), now, f.writeFails)))
  }

  /** A store failure on a read or a write leaves the cache as it was. */
  lemma StoreFailureLeavesCache(st: State, id: string, artist: string, album: Album, now: int, f: CacheFaults)
    ensures GetByIdRun(st, id, now, f).result.Err? ==> GetByIdRun(st, id, now, f).post == st
    ensures GetByArtistRun(st, artist, now, f).result.Err? ==> GetByArtistRun(st, artist, now, f).post == st
    ensures UpdateRun(st, album, now, f).result.Err? ==> UpdateRun(st, album, now, f).post == st
    ensures DeleteRun(st, id, now, f).result.Failed? ==> DeleteRun(st, id, now, f).post == st
  {
  }

  /**
   * Create then GetByID of the new album answers the created record,
   * whether it comes from the pre-warmed entry or from the store, provided
   * the identifier was fresh and no stale entry for it could survive.
   */
  lemma CreateThenGetById(st: State, album: Album, freshId: string, now: int, f: CacheFaults,
                          later: int, g: CacheFaults)
    requires !HasId(st.albums, freshId)
    requires CacheKey(Id, freshId) !in f.writeFails || CacheKey(Id, freshId) !in st.entries
    requires now <= later
    ensures var c := CreateRun(st, album, freshId, now, f);
      c.result == Ok(Mem.Stamped(album, freshId, now))
      && GetByIdRun(c.post, freshId, later, g).result == c.result
  {
    var created := Mem.Stamped(album, freshId, now);
    var c := CreateRun(st, album, freshId, now, f);
    var idKey := CacheKey(Id, freshId);
    CreateCachesNewAlbum(st.entries, created, now, f.writeFails);
    CacheKeyInjective(Id, freshId, Artist, created.artist);
    CacheKeyInjective(Id, freshId, Stock, "");
    Mem.CreateThenFound(st.albums, album, freshId, now);
    if idKey !in f.writeFails {
      assert c.post.entries[idKey] == Entry(EncodeAlbum(created), Some(now + 300));
    } else {
      assert idKey !in c.post.entries;
    }
  }

  /**
   * Delete then GetByID reports an error: the by-id entry is gone (when its
   * DEL succeeded), so the read falls through to the store, which no longer
   * holds the album.
   */
  lemma DeleteThenGetByIdFails(st: State, id: string, now: int, f: CacheFaults, later: int, g: CacheFaults)
    requires UniqueIds(st.albums)
    requires CacheKey(Id, id) !in f.writeFails
    ensures var d := DeleteRun(st, id, now, f);
      d.result.Done? ==> GetByIdRun(d.post, id, later, g).result.Err?
  {
    var d := DeleteRun(st, id, now, f);
    if d.result.Done? {
      DeleteInvalidatesExactly(st.entries, id, Mem.FindById(st.albums, id), now, f.writeFails);
      assert CacheKey(Id, id) !in d.post.entries;
      Mem.DeleteThenNotFound(st.albums, id);
    }
  }

  /**
   * After a successful Update, a read of the old or the new artist's list
   * goes to the store and answers the store's current state.
   */
  lemma UpdateThenArtistReadIsFresh(st: State, album: Album, now: int, f: CacheFaults,
                                    artist: string, later: int, g: CacheFaults)
    requires artist == album.artist
          || (Mem.FindById(st.albums, album.id).Ok? && artist == Mem.FindById(st.albums, album.id).value.artist)
    requires CacheKey(Artist, artist) !in f.writeFails
    ensures var u := UpdateRun(st, album, now, f);
      u.result.Ok? ==> GetByArtistRun(u.post, artist, later, g).result == Mem.ArtistQuery(u.post.albums, artist)
  {
    var u := UpdateRun(st, album, now, f);
    if u.result.Ok? {
      var before := Mem.FindById(st.albums, album.id);
      UpdateInvalidatesExactly(st.entries, album, before, u.result.value, now, f.writeFails);
      assert CacheKey(Artist, artist) in UpdateKeys(album, before);
      assert CacheKey(Artist, artist) !in u.post.entries;
    }
  }

  /**
   * The all-albums list is never invalidated: a live cached list is still
   * served after a Create, even though the store has grown.
   */
  lemma CreateLeavesAllListServed(st: State, album: Album, freshId: string, now: int, f: CacheFaults,
                                  later: int, g: CacheFaults, list: seq<Album>)
    requires CacheKey(All, "") in st.entries
    requires st.entries[CacheKey(All, "")].payload == EncodeList(list)
    requires Live(st.entries[CacheKey(All, "")], later)
    requires !g.readFails
    ensures GetAllRun(CreateRun(st, album, freshId, now, f).post, later, g).result == Ok(list)
  {
    var created := Mem.Stamped(album, freshId, now);
    WritesKeepAllEntry(Ok(created), album, Err(NotFound("")), Err(NotFound("")), "", Done);
    ApplyAllElsewhere(st.entries, CreateEffects(Ok(created)), now, f.writeFails, CacheKey(All, ""));
  }

  /**
   * Expiry bounds staleness: once a read's entry is absent or past its
   * expiry, the read goes to the store and answers its current content,
   * whether or not the GET fails.
   */
  lemma ExpiredEntriesAreNotServed(st: State, id: string, artist: string, later: int, g: CacheFaults)
    ensures var k := CacheKey(All, "");
      (k !in st.entries || !Live(st.entries[k], later)) ==>
      GetAllRun(st, later, g).result == Ok(st.albums)
    ensures var k := CacheKey(Id, id);
      (k !in st.entries || !Live(st.entries[k], later)) ==>
      GetByIdRun(st, id, later, g).result == Mem.FindById(st.albums, id)
    ensures var k := CacheKey(Artist, artist);
      (k !in st.entries || !Live(st.entries[k], later)) ==>
      GetByArtistRun(st, artist, later, g).result == Mem.ArtistQuery(st.albums, artist)
    ensures var k := CacheKey(Stock, "");
      (k !in st.entries || !Live(st.entries[k], later)) ==>
      GetInStockRun(st, later, g).result == Ok(Mem.Select(st.albums, Mem.InStock))
  {
  }

  /**
   * The decorator. It owns no state of its own: it reads and writes the
   * wrapped store and the cache backend.
   */
  class CachedAlbumRepository {
    const repo: Mem.MemoryAlbumRepository
    const cache: RedisCache

    constructor (repo: Mem.MemoryAlbumRepository, cache: RedisCache)
      ensures this.repo == repo && this.cache == cache
    {
      this.repo := repo;
      this.cache := cache;
    }

    ghost function Current(): State
      reads repo, cache
    {
      State(repo.albums, cache.entries)
    }

    method GetAll(now: int, f: CacheFaults) returns (r: Result<seq<Album>>)
      modifies cache
      ensures var run := GetAllRun(old(Current()), now, f);
        r == run.result && Current() == run.post
    {
      var key := CacheKey(All, "");
      var reply := cache.Get(key, now, f.readFails);
      var data := if reply.ReadError? then Blank else reply.data;
      if data != Blank {
        var decoded := DecodeList(data);
        if decoded.Some? {
          return Ok(decoded.value);
        }
      }
      r := repo.GetAll();
      if r.Ok? {
        ApplyAllSnoc(cache.entries, [], Put(key, EncodeList(r.value), Ttl(All)), now, f.writeFails);
        var _ := cache.Set(key, EncodeList(r.value), Ttl(All), now, key in f.writeFails);
      }
    }

    method GetByID(id: string, now: int, f: CacheFaults) returns (r: Result<Album>)
      modifies cache
      ensures var run := GetByIdRun(old(Current()), id, now, f);
        r == run.result && Current() == run.post
    {
      var key := CacheKey(Id, id);
      var reply := cache.Get(key, now, f.readFails);
      var data := if reply.ReadError? then Blank else reply.data;
      if data != Blank {
        var decoded := DecodeAlbum(data);
        if decoded.Some? {
          return Ok(decoded.value);
        }
      }
      r := repo.GetByID(id);
      if r.Err? {
        return;
      }
      ApplyAllSnoc(cache.entries, [], Put(key, EncodeAlbum(r.value), Ttl(Id)), now, f.writeFails);
      var _ := cache.Set(key, EncodeAlbum(r.value), Ttl(Id), now, key in f.writeFails);
    }

    method GetByArtist(artist: string, now: int, f: CacheFaults) returns (r: Result<seq<Album>>)
      modifies cache
      ensures var run := GetByArtistRun(old(Current()), artist, now, f);
        r == run.result && Current() == run.post
    {
      var key := CacheKey(Artist, artist);
      var reply := cache.Get(key, now, f.readFails);
      var data := if reply.ReadError? then Blank else reply.data;
      if data != Blank {
        var decoded := DecodeList(data);
        if decoded.Some? {
          return Ok(decoded.value);
        }
      }
      r := repo.GetByArtist(artist);
      if r.Err? {
        return;
      }
      ApplyAllSnoc(cache.entries, [], Put(key, EncodeList(r.value), Ttl(Artist)), now, f.writeFails);
      var _ := cache.Set(key, EncodeList(r.value), Ttl(Artist), now, key in f.writeFails);
    }

    method GetInStock(now: int, f: CacheFaults) returns (r: Result<seq<Album>>)
      modifies cache
      ensures var run := GetInStockRun(old(Current()), now, f);
        r == run.result && Current() == run.post
    {
      var key := CacheKey(Stock, "");
      var reply := cache.Get(key, now, f.readFails);
      var data := if reply.ReadError? then Blank else reply.data;
      if data != Blank {
        var decoded := DecodeList(data);
        if decoded.Some? {
          return Ok(decoded.value);
        }
      }
      r := repo.GetInStock();
      if r.Ok? {
        ApplyAllSnoc(cache.entries, [], Put(key, EncodeList(r.value), Ttl(Stock)), now, f.writeFails);
        var _ := cache.Set(key, EncodeList(r.value), Ttl(Stock), now, key in f.writeFails);
      }
    }

    /** invalidateCache: DEL of one query shape's key; a failure is only logged. */
    method Invalidate(c: Category, discriminator: string, f: CacheFaults)
      modifies cache
      ensures var key := CacheKey(c, discriminator);
        cache.entries == ApplyOp(old(cache.entries), Remove(key), 0, key in f.writeFails)
    {
      var key := CacheKey(c, discriminator);
      var _ := cache.Delete(key, key in f.writeFails);
    }

    /** cacheAlbum: SET of the album's by-id entry for 300 s; a failure is only logged. */
    method CacheAlbum(a: Album, now: int, f: CacheFaults)
      modifies cache
      ensures var key := CacheKey(Id, a.id);
        cache.entries == ApplyOp(old(cache.entries), Put(key, EncodeAlbum(a), Ttl(Id)), now, key in f.writeFails)
    {
      var key := CacheKey(Id, a.id);
      var _ := cache.Set(key, EncodeAlbum(a), Ttl(Id), now, key in f.writeFails);
    }

    /** Stores the album under the generated identifier `freshId`, then updates the cache. */
    method Create(album: Album, freshId: string, now: int, f: CacheFaults) returns (r: Result<Album>)
      modifies repo, cache
      ensures var run := CreateRun(old(Current()), album, freshId, now, f);
        r == run.result && Current() == run.post
    {
      ghost var e0 := cache.entries;
      var created := repo.Create(album, freshId, now);
      r := Ok(created);
      var ops := CreateEffects(r);
      Invalidate(Artist, created.artist, f);
      ApplyAllSnoc(e0, [], ops[0], now, f.writeFails);
      Invalidate(Stock, "", f);
      ApplyAllSnoc(e0, ops[..1], ops[1], now, f.writeFails);
      assert ops[..1] + [ops[1]] == ops[..2];
      CacheAlbum(created, now, f);
      ApplyAllSnoc(e0, ops[..2], ops[2], now, f.writeFails);
      assert ops[..2] + [ops[2]] == ops;
    }

    method Update(album: Album, now: int, f: CacheFaults) returns (r: Result<Album>)
      modifies repo, cache
      ensures var run := UpdateRun(old(Current()), album, now, f);
        r == run.result && Current() == run.post
    {
      ghost var e0 := cache.entries;
      var before := repo.GetByID(album.id);
      r := repo.Update(album, now);
      if r.Err? {
        return;
      }
      ghost var done: seq<CacheOp> := [];
      Invalidate(Id, album.id, f);
      ApplyAllSnoc(e0, done, Remove(CacheKey(Id, album.id)), now, f.writeFails);
      done := done + [Remove(CacheKey(Id, album.id))];
      if before.Ok? {
        Invalidate(Artist, before.value.artist, f);
        ApplyAllSnoc(e0, done, Remove(CacheKey(Artist, before.value.artist)), now, f.writeFails);
        done := done + [Remove(CacheKey(Artist, before.value.artist))];
      }
      Invalidate(Artist, album.artist, f);
      ApplyAllSnoc(e0, done, Remove(CacheKey(Artist, album.artist)), now, f.writeFails);
      done := done + [Remove(CacheKey(Artist, album.artist))];
      Invalidate(Stock, "", f);
      ApplyAllSnoc(e0, done, Remove(CacheKey(Stock, "")), now, f.writeFails);
      done := done + [Remove(CacheKey(Stock, ""))];
      assert done == UpdateEffects(album, before, r);
    }

    method Delete(id: string, now: int, f: CacheFaults) returns (r: Status)
      modifies repo, cache
      ensures var run := DeleteRun(old(Current()), id, now, f);
        r == run.result && Current() == run.post
    {
      ghost var e0 := cache.entries;
      var before := repo.GetByID(id);
      r := repo.Delete(id);
      if r.Failed? {
        return;
      }
      ghost var done: seq<CacheOp> := [];
      Invalidate(Id, id, f);
      ApplyAllSnoc(e0, done, Remove(CacheKey(Id, id)), now, f.writeFails);
      done := done + [Remove(CacheKey(Id, id))];
      if before.Ok? {
        Invalidate(Artist, before.value.artist, f);
        ApplyAllSnoc(e0, done, Remove(CacheKey(Artist, before.value.artist)), now, f.writeFails);
        done := done + [Remove(CacheKey(Artist, before.value.artist))];
      }
      Invalidate(Stock, "", f);
      ApplyAllSnoc(e0, done, Remove(CacheKey(Stock, "")), now, f.writeFails);
      done := done + [Remove(CacheKey(Stock, ""))];
      assert done == DeleteEffects(id, before, r);
    }
  }
}
