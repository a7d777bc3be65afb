# go-music-shop album storage, modelled in Dafny

go-music-shop keeps a catalogue of vinyl albums. An album has an identifier,
a title, an artist, a price, a year, a genre, a condition, an in-stock flag
and two timestamps. This project models and verifies four layers of the
catalogue's storage path:

- **The in-memory store** (`MemoryRepository`). It is a `class` over a
  `seq<Album>` with:
  - linear search by identifier;
  - append on create;
  - in-place replacement on update, keeping `CreatedAt`;
  - an order-preserving splice on delete;
  - filters by artist and by stock.

  Each method is proved equal to a specification function, and the
  properties are proved about those functions.
- **The cache backend** (`CacheBackend`). Its entries are a
  `map<string, Entry>`, and each entry carries an expiry time or none. GET
  answers the empty string for a missing or expired key. SET takes a
  time-to-live, where 0 means the client's configured default. There is also
  DEL. Any call may fail.
- **The caching decorator** (`CachedRepository`). Reads are read-through
  with one time-to-live per category: 60 s for `all`, 300 s for `id`, 120 s
  for `artist`, 30 s for `stock`. Writes delete derived keys after the store
  call succeeds, and Create also pre-warms the new album's by-id entry. The
  decorator is stated twice:
  - as decision functions that take the wrapped store's answer as a
    parameter, so they hold for any store;
  - as a class wrapping the in-memory store and the cache. Its methods are
    proved equal to `*Run` functions over `State(albums, entries)`.
- **The business service** (`Service`) and the **pagination** of the RPC
  `GetAlbums` reply (`Catalog`).
  - Validation guards run before any repository call.
  - `UpdateAlbum` reads the stored record and carries its `CreatedAt`
    forward.
  - A page is the offset, clamped into the list, followed by at most
    `limit` albums, where 0 means no limit. `TotalCount` is the length of
    the whole list.

Some of the source's inputs are parameters of the model:

- the clock (`now`);
- the identifier generator (`freshId`, the identifier the store will
  assign);
- the failures of individual cache calls: `CacheFaults`, one flag for the
  GET and the set of keys whose SET or DEL fails.

The work each goroutine does in the background becomes a sequence of cache
operations (`CacheOp`). They are applied in order after the store call
returns, at the same clock reading.

## Model

| member | source | states |
|---|---|---|
| CachedRepository.CacheKeyInjective | internal/repository/cached_album_repository.go:32-34 | Two keys `album:<category>:<discriminator>` are equal exactly when their category and their discriminator are both equal. The tags contain no `:`. |
| CachedRepository.ReadThrough | internal/repository/cached_album_repository.go:37-82 | The store is consulted exactly when the cached text is empty or does not decode. A cached value that decodes is returned, with no store call and no cache write. A GET error is treated as a miss and does not surface. On a miss, the store's answer is returned unchanged. A store error writes nothing. A store success writes one SET of the encoded answer under the read's key, with the read's time-to-live. |
| CachedRepository.HitIgnoresStore | internal/repository/cached_album_repository.go:52-56 | On a hit that decodes, the outcome does not depend on what the store would have answered. |
| CachedRepository.ReadKeysAndTtls | internal/repository/cached_album_repository.go:69-79 | After a miss and a successful store read, the four reads cache under `album:all:` for 60 s, `album:id:<id>` for 300 s, `album:artist:<artist>` for 120 s and `album:stock:` for 30 s. |
| CachedRepository.CreateEffects | internal/repository/cached_album_repository.go:133-148 | A failed store write has no cache effect. After a success the writes touch exactly the artist list, the in-stock list and the new album's by-id key. The last write is the SET of the new album for 300 s. |
| CachedRepository.UpdateEffects | internal/repository/cached_album_repository.go:165-188 | A failed store write has no cache effect. After a success every write is a DEL. The DELs cover exactly the by-id key, the new artist's list, the in-stock list and the old artist's list, the last only when the pre-read found the album. |
| CachedRepository.DeleteEffects | internal/repository/cached_album_repository.go:191-209 | A failed store write has no cache effect. After a success every write is a DEL. The DELs cover exactly the by-id key, the in-stock list and the old artist's list, the last only when the pre-read found the album. |
| CachedRepository.UpdateInvalidatesExactly | internal/repository/cached_album_repository.go:174-185 | The cache after a successful Update is the cache before, less its keys whose DEL did not fail. No other entry changes. |
| CachedRepository.DeleteInvalidatesExactly | internal/repository/cached_album_repository.go:200-206 | The cache after a successful Delete is the cache before, less its keys whose DEL did not fail. No other entry changes. |
| CachedRepository.CreateCachesNewAlbum | internal/repository/cached_album_repository.go:141-161 | After a successful Create, the artist and in-stock lists are dropped. The new album is stored under its by-id key with expiry now + 300, unless that SET fails. Every other entry is kept. |
| CachedRepository.WritesKeepAllEntry | internal/repository/cached_album_repository.go:141-147 | No Create, Update or Delete ever writes the `album:all:` key. |
| CachedRepository.StoreFailureLeavesCache | internal/repository/cached_album_repository.go:111-252 | When the store answers an error to GetByID (:111-114), Update (:169-172), Delete (:195-198) or GetByArtist (:249-252), both the store and the cache are left unchanged. |
| CachedRepository.CreateThenGetById | internal/repository/cached_album_repository.go:133-161 | Create is followed by GetByID of the assigned identifier, at any later time and under any cache faults. The read answers the created album, from the pre-warmed entry or from the store. This needs a fresh identifier and no stale entry that could survive. |
| CachedRepository.DeleteThenGetByIdFails | internal/repository/cached_album_repository.go:191-209 | With unique identifiers and a by-id DEL that succeeds, a GetByID after a successful Delete answers an error. |
| CachedRepository.UpdateThenArtistReadIsFresh | internal/repository/cached_album_repository.go:174-185 | After a successful Update, reading the new or the old artist's list answers the store's current content, provided that key's DEL succeeded. |
| CachedRepository.CreateLeavesAllListServed | internal/repository/cached_album_repository.go:37-56 | A live cached all-albums list is still served after a Create, although the store has grown. |
| CachedRepository.ExpiredEntriesAreNotServed | internal/repository/cached_album_repository.go:45-66 | Once a read's key is absent or past its expiry, each of the four reads goes to the store and answers the store's current content, whether or not the GET fails. Together with the time-to-lives of `ReadKeysAndTtls`, a cached answer is served for at most its category's time-to-live after it was written. |
| CachedRepository.CachedAlbumRepository.constructor | internal/repository/cached_album_repository.go:23-29 | The decorator wraps the given store and cache client and keeps no state of its own. |
| CachedRepository.CachedAlbumRepository.GetAll | internal/repository/cached_album_repository.go:37-82 | The answer and the new store and cache state are those of `GetAllRun`, which is read-through on `album:all:` over the store's list. |
| CachedRepository.CachedAlbumRepository.GetByID | internal/repository/cached_album_repository.go:85-130 | The answer and the new state are those of `GetByIdRun`, which is read-through on `album:id:<id>` over the store's first match. |
| CachedRepository.CachedAlbumRepository.GetByArtist | internal/repository/cached_album_repository.go:223-268 | The answer and the new state are those of `GetByArtistRun`, which is read-through on `album:artist:<artist>`. |
| CachedRepository.CachedAlbumRepository.GetInStock | internal/repository/cached_album_repository.go:270-312 | The answer and the new state are those of `GetInStockRun`, which is read-through on `album:stock:`. |
| CachedRepository.CachedAlbumRepository.Invalidate | internal/repository/cached_album_repository.go:212-221 | The cache loses the key `album:<category>:<discriminator>`, unless the DEL fails. |
| CachedRepository.CachedAlbumRepository.CacheAlbum | internal/repository/cached_album_repository.go:151-162 | The album's by-id key is set to its encoding for 300 s, unless the SET fails. |
| CachedRepository.CachedAlbumRepository.Create | internal/repository/cached_album_repository.go:133-148 | The answer and the new state are those of `CreateRun`: the stamped album is appended, then `CreateEffects` is applied. |
| CachedRepository.CachedAlbumRepository.Update | internal/repository/cached_album_repository.go:165-188 | The answer and the new state are those of `UpdateRun`: the pre-read, the store update, then `UpdateEffects`. |
| CachedRepository.CachedAlbumRepository.Delete | internal/repository/cached_album_repository.go:191-209 | The answer and the new state are those of `DeleteRun`: the pre-read, the store delete, then `DeleteEffects`. |
| CacheBackend.Lookup | pkg/redis/redis_client.go:64-75 | A GET error occurs exactly when the call fails. A live entry, one before its expiry or stored without one, answers its payload. A missing or expired key answers the empty string. |
| CacheBackend.Expiry | pkg/redis/redis_client.go:55-56 | A SET with an expiration of 0 stores the key without expiry. Any other expiration lies strictly after the time of the SET. |
| CacheBackend.RedisCache.constructor | pkg/redis/redis_client.go:20-45 | The client records the configured default time-to-live. It attaches to the server's existing entries, which earlier runs or other instances may have left, and does not flush them. |
| CacheBackend.EncodeAlbum | internal/repository/cached_album_repository.go:151-157 | Encoding one album is never empty, decodes back to the album, and does not decode as a list. |
| CacheBackend.EncodeList | internal/repository/cached_album_repository.go:69-73 | Encoding a list is never empty, decodes back to the list, and does not decode as one album. |
| CacheBackend.ApplyAllElsewhere | internal/repository/cached_album_repository.go:151-221 | A key that no cache write names keeps its entry, or its absence. This holds for the SETs of `cacheAlbum` (:151-162) and the DELs of `invalidateCache` (:212-221). |
| CacheBackend.ApplyRemovals | internal/repository/cached_album_repository.go:212-221 | A run of DELs removes exactly the named keys whose DEL does not fail. |
| CacheBackend.RedisCache.Get | pkg/redis/redis_client.go:64-75 | Answers `Lookup` of the current entries. |
| CacheBackend.RedisCache.Set | pkg/redis/redis_client.go:49-61 | Reports success exactly when the call does not fail. A time-to-live of 0 is replaced by the configured default. The key then holds the value until now + ttl, or without expiry when the default is also 0. A failed call leaves the entries unchanged. |
| CacheBackend.RedisCache.Delete | pkg/redis/redis_client.go:77-83 | Reports success exactly when the call does not fail. The key is then absent. A failed call leaves the entries unchanged. |
| MemoryRepository.IndexOf | internal/repository/album_repository.go:52-56 | The index of the first album with the identifier. There is none exactly when no album has it. |
| MemoryRepository.FindById | internal/repository/album_repository.go:48-59 | The answer is a success exactly when some album has the identifier, and it is then the first such album. Otherwise it is the error "album not found". |
| MemoryRepository.SelectAppend | internal/repository/album_repository.go:116-120 | Filtering distributes over concatenation. |
| MemoryRepository.SelectCount | internal/repository/album_repository.go:116-120 | Each matching album occurs in the filtered list exactly as often as in the store. A non-matching album does not occur. |
| MemoryRepository.SelectMembership | internal/repository/album_repository.go:136-140 | An album is in the filtered list exactly when it is stored and matches. |
| MemoryRepository.SelectOrder | internal/repository/album_repository.go:136-140 | When the first match is at position i, the filtered list is non-empty and starts with the album at i. |
| MemoryRepository.ArtistQuery | internal/repository/album_repository.go:110-127 | The answer is an error exactly when no stored album has the artist. Otherwise it is the stored-order filter `Select` by artist. An album is in it exactly when it is stored and by that artist. By `SelectCount` and `SelectAppend`, each album occurs as often as it is stored, in stored order. |
| MemoryRepository.Stamped | internal/repository/album_repository.go:66-68 | The created album carries the generated identifier and both timestamps set to now. Every other field is the caller's. |
| MemoryRepository.UpdateApplied | internal/repository/album_repository.go:76-92 | When no album has the identifier, the result is the error "album with ID … not found" and the collection is unchanged. Otherwise the first match is overwritten by the input, with the original CreatedAt and UpdatedAt = now. The length and every other element are unchanged. |
| MemoryRepository.DeleteApplied | internal/repository/album_repository.go:95-107 | When no album has the identifier, the result is the not-found error and the collection is unchanged. Otherwise exactly the first match is removed. The elements before it keep their places, those after it shift down by one, and the multiset loses exactly that album. |
| MemoryRepository.CreateKeepsIdsUnique | internal/repository/album_repository.go:62-73 | Appending an album whose identifier is not yet used keeps identifiers unique. |
| MemoryRepository.UpdateKeepsIdsUnique | internal/repository/album_repository.go:76-92 | Update keeps identifiers unique. |
| MemoryRepository.DeleteKeepsIdsUnique | internal/repository/album_repository.go:95-107 | Delete keeps identifiers unique. |
| MemoryRepository.DeleteThenNotFound | internal/repository/album_repository.go:95-107 | With unique identifiers, the identifier is no longer found after a Delete. |
| MemoryRepository.CreateThenFound | internal/repository/album_repository.go:62-73 | After a Create with a fresh identifier, lookup by that identifier finds exactly the created album. |
| MemoryRepository.MemoryAlbumRepository.constructor | internal/repository/album_repository.go:20-38 | The store starts with the single seed album "Blue Train". |
| MemoryRepository.MemoryAlbumRepository.GetAll | internal/repository/album_repository.go:41-45 | Answers the stored list and never fails. |
| MemoryRepository.MemoryAlbumRepository.GetByID | internal/repository/album_repository.go:48-59 | The linear scan answers `FindById`, and the store is not modified. |
| MemoryRepository.MemoryAlbumRepository.Create | internal/repository/album_repository.go:62-73 | The stamped album is appended at the end, and the earlier elements are unchanged. |
| MemoryRepository.MemoryAlbumRepository.Update | internal/repository/album_repository.go:76-92 | The scan and in-place overwrite answer `UpdateApplied` of the previous contents and leave its collection. |
| MemoryRepository.MemoryAlbumRepository.Delete | internal/repository/album_repository.go:95-107 | The scan and splice answer `DeleteApplied` of the previous contents and leave its collection. |
| MemoryRepository.MemoryAlbumRepository.GetByArtist | internal/repository/album_repository.go:110-127 | The filtering loop answers `ArtistQuery`, the stored-order filter by artist, with an error when it is empty. |
| MemoryRepository.MemoryAlbumRepository.GetInStock | internal/repository/album_repository.go:130-143 | Answers the stored-order filter of in-stock albums, possibly empty, and never fails. |
| Service.CheckId | internal/service/album_service.go:25-29 | Rejects exactly the empty identifier, with an invalid-input error. |
| Service.CheckArtist | internal/service/album_service.go:77-80 | Rejects exactly the empty artist, with an invalid-input error. |
| Service.CheckNewAlbum | internal/service/album_service.go:33-39 | Accepts exactly a non-empty title with a non-negative price. The title is checked first, then the price, each with its own message. |
| Service.CheckChangedAlbum | internal/service/album_service.go:45-54 | Accepts exactly a non-empty identifier, a non-empty title and a non-negative price. The identifier is checked first, then CreateAlbum's checks. |
| Service.PrepareUpdate | internal/service/album_service.go:57-63 | A failed pre-read yields the wrapped "album not found" error. Otherwise the album sent on is the caller's with only CreatedAt replaced by the stored one. |
| Service.GuardsPrecedeRepository | internal/service/album_service.go:25-82 | Rejected input to GetAlbumByID, DeleteAlbum, GetAlbumsByArtist, CreateAlbum or UpdateAlbum leaves the store and the cache untouched. The answer is the first failing guard's own error. |
| Service.UpdateAlbumNeedsExistingRecord | internal/service/album_service.go:57-60 | When the pre-read fails, UpdateAlbum answers the wrapped error and never writes the store or the cache. |
| Service.UpdateCanLeaveStaleById | internal/repository/cached_album_repository.go:111-127 | The pre-read and the update make independent cache calls. Suppose the pre-read's SET of the by-id key succeeds and the update's DEL of that key fails. Then a successful update leaves the pre-update album cached, and GetByID serves it for the next 300 seconds while the store holds the new record. |
| Service.UpdateAlbumOfStoredAlbum | internal/service/album_service.go:45-66 | A valid update of a stored album succeeds. The stored record becomes the caller's album with the original CreatedAt and UpdatedAt = now, and nothing else in the store changes. |
| Service.AlbumService.constructor | internal/service/album_service.go:15-17 | The service delegates to the given repository. |
| Service.AlbumService.GetAllAlbums | internal/service/album_service.go:20-22 | Answers the decorator's GetAll unchanged. |
| Service.AlbumService.GetAlbumByID | internal/service/album_service.go:25-30 | Answers `GetAlbumByIdRun`: the guard, then the decorator's GetByID. |
| Service.AlbumService.CreateAlbum | internal/service/album_service.go:33-42 | Answers `CreateAlbumRun`: the guards, then the decorator's Create. |
| Service.AlbumService.UpdateAlbum | internal/service/album_service.go:45-66 | Answers `UpdateAlbumRun`: the guards, then the pre-read under its own cache faults, then the CreatedAt copy, then the decorator's Update under the update's cache faults. |
| Service.AlbumService.DeleteAlbum | internal/service/album_service.go:69-74 | Answers `DeleteAlbumRun`: the guard, then the decorator's Delete. |
| Service.AlbumService.GetAlbumsByArtist | internal/service/album_service.go:77-82 | Answers `GetAlbumsByArtistRun`: the guard, then the decorator's GetByArtist. |
| Service.AlbumService.GetAlbumsInStock | internal/service/album_service.go:85-87 | Answers the decorator's GetInStock unchanged. |
| Catalog.ToInt32 | internal/delivery/catalog/service.go:67 | The 32-bit conversion of a count is the count itself whenever it fits. |
| Catalog.PageStart | internal/delivery/catalog/service.go:39-45 | The page start is the offset clamped into [0, length of the list]. |
| Catalog.NegativeLimitPanics | internal/delivery/catalog/service.go:47-55 | The handler's slice bounds are invalid exactly when the limit is negative. |
| Catalog.NegativeLimitWitness | internal/delivery/catalog/service.go:47-55 | Offset 0 with limit -1 gives invalid slice bounds, on a list of any length. |
| Catalog.PageBounds | internal/delivery/catalog/service.go:39-55 | The start is the clamped offset, and start ≤ end ≤ length. Limit 0 reaches the end of the list. A positive limit gives min(limit, length − start) albums, and a negative limit gives none. For every non-negative limit these are the handler's own bounds. |
| Catalog.GetAlbums | internal/delivery/catalog/service.go:29-68 | A service error is reported with its text (`%v`), and no page is produced. Otherwise the page is the contiguous run of the list starting at the clamped offset. With limit 0 it runs to the end of the list. With a positive limit it holds exactly min(limit, length − start) albums. With a negative limit it is empty, which is the corrected behaviour. TotalCount is the length of the whole list whenever it fits in 32 bits. |
| Catalog.FirstUnlimitedPageIsEverything | internal/delivery/catalog/service.go:51-53 | Offset 0 with limit 0 returns the whole list. |
| Catalog.PagesTile | internal/delivery/catalog/service.go:39-55 | The page at offset o, followed by the page at o + limit, is a prefix of the list from o onwards, with nothing skipped or repeated. |

## Left out

- Goroutines, the store's read-write mutex and the per-call context timeouts, including the decorator's 2-second Redis timeout, are not modelled.
  - Each goroutine's cache writes run in order, right after the store call.
  - Races between a read repopulating the cache and a write invalidating it are not modelled.
- JSON marshalling is abstracted.
  - A payload is either foreign text, which never decodes, or the encoding of one album or of a list.
  - Field-level encoding, including how timestamps are rendered, is not modelled.
- `time.Now()` and `generateID` are parameters. Their values are not modelled as clock readings or as random identifiers.
- MemoryRepository.Stamped: the source reads the clock twice, once for CreatedAt and once for UpdatedAt. The model uses one reading, `now`, for both.
  - A created album therefore has equal timestamps in the model, while the program's two readings may differ by a few nanoseconds.
  - The same merging applies to `MemoryRepository.SeedAlbum` and to the constructor's seed album.
- One clock reading, `now`, also covers a decorator operation's store call and its background cache writes. The program's writes happen slightly later, so their expiry times are slightly later too.
- Service.CheckNewAlbum: `Price` is a `real`, so the model has no NaN and no infinities.
  - The program's `< 0` guards accept NaN and +Inf, which a gRPC request's double can carry (internal/delivery/catalog/service.go:97, :124). CreateAlbum and UpdateAlbum store such an album.
  - `json.Marshal` then fails for every payload that contains the album. The decorator silently skips each SET that would carry it: the album's by-id entry, the all-albums list, and its artist's list and the in-stock list when it belongs to them.
  - `EncodeAlbum` and `EncodeList` always succeed, so none of this is modelled. "Accepts exactly a non-negative price" holds only for real-valued prices.
- Service.CheckChangedAlbum: the same gap for UpdateAlbum's price guard.
- The PostgreSQL store (internal/repository/postgres_album_repository.go) is not part of this model.
  - The decorator's decisions are stated for any store's answer.
  - The concrete decorator wraps the in-memory store.
  - The in-memory store's GetAll, Create and GetInStock never fail, so the decorator's generic store-error path on those operations is covered only by `ReadThrough` and `CreateEffects`.
- A Redis server's own eviction is not modelled: entries leave the cache only by DEL, and expired entries are kept but never served.
- Callers observe the store's updates through the `*Album` they pass in. The model returns the stored album instead of updating the argument in place.
- The RPC handlers other than `GetAlbums`, the protobuf conversion, the HTTP handlers, configuration, connection set-up, wiring and logging are not part of this model.
- CachedRepository.CachedAlbumRepository.Create: the in-memory store never fails a create, so this method has no error branch. The error path is in `CreateEffects`, which returns no cache writes for a failed store call.

## Findings

| source | as written | input that shows it | evidently intended | confidence | as-written member | corrected member |
|---|---|---|---|---|---|---|
| internal/delivery/catalog/service.go:47-55 | The limit is added to the start unchecked, and only the upper bound of `end` is clamped. A negative limit makes `end < start`, and the slice `albums[start:end]` then panics. | `GetAlbums` with offset 0 and limit -1, on any list | A negative limit is rejected or treated as an empty page, never a runtime panic | medium, not executed | Catalog.PageBoundsAsWritten / Catalog.NegativeLimitWitness | Catalog.PageBounds |

`Catalog.GetAlbums` uses the corrected bounds. For a negative limit it
answers an empty page starting at the clamped offset. For every limit of 0
or more it answers exactly the handler's page (`Catalog.PageBounds`).
