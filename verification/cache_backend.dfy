/**
 * The key-value cache the decorator talks to: entries with an expiry time,
 * GET answering an empty string for a missing or expired key, SET with a
 * time-to-live and DEL. Serialisation is abstracted: a payload is either
 * foreign text, which never decodes, or the encoding of a snapshot.
 */
module CacheBackend {
  import opened Domain

  /** What the decorator serialises: one album or a list of albums. */
  datatype Snapshot = One(album: Album) | Many(albums: seq<Album>)

  datatype Payload = Text(raw: string) | Json(snapshot: Snapshot)

  /** The empty string: what GET answers for a missing key. */
  const Blank: Payload := Text("")

  function DecodeAlbum(p: Payload): Option<Album>
  {
    if p.Json? && p.snapshot.One? then Some(p.snapshot.album) else None
  }

  function DecodeList(p: Payload): Option<seq<Album>>
  {
    if p.Json? && p.snapshot.Many? then Some(p.snapshot.albums) else None
  }

  function EncodeAlbum(a: Album): (p: Payload)
    ensures p != Blank && DecodeAlbum(p) == Some(a) && DecodeList(p) == None
  {
    Json(One(a))
  }

  function EncodeList(s: seq<Album>): (p: Payload)
    ensures p != Blank && DecodeList(p) == Some(s) && DecodeAlbum(p) == None
  {
    Json(Many(s))
  }

  /**
   * A stored value and the clock reading from which it is no longer served;
   * None for a key stored without expiry.
   */
  datatype Entry = Entry(payload: Payload, expiresAt: Option<int>)

  /** An entry is served until its expiry time, and forever when it has none. */
  predicate Live(e: Entry, now: int)
  {
    e.expiresAt.None? || now < e.expiresAt.value
  }

  /** The expiry of a SET at `now`: an expiration of 0 stores the key without one. */
  function Expiry(now: int, ttl: nat): (t: Option<int>)
    ensures t.None? <==> ttl == 0
    ensures t.Some? ==> now < t.value
  {
    if ttl == 0 then None else Some(now + ttl)
  }

  /** The answer to GET: a value (Blank when absent) or a backend error. */
  datatype Reply = Value(data: Payload) | ReadError

  /** GET at clock `now`; `fails` stands for a timeout or connection error. */
  function Lookup(entries: map<string, Entry>, key: string, now: int, fails: bool): (r: Reply)
    ensures r.ReadError? <==> fails
    ensures r.Value? && r.data != Blank ==>
      key in entries && Live(entries[key], now) && r.data == entries[key].payload
    ensures !fails && (key !in entries || !Live(entries[key], now)) ==> r == Value(Blank)
    ensures !fails && key in entries && Live(entries[key], now) ==> r == Value(entries[key].payload)
  {
    if fails then ReadError
    else if key in entries && Live(entries[key], now) then Value(entries[key].payload)
    else Value(Blank)
  }

  /** One cache write as the server performs it: SET with an expiration in seconds, or DEL. */
  datatype CacheOp = Put(key: string, payload: Payload, ttl: nat) | Remove(key: string)

  /** Which cache calls fail during one decorator operation. */
  datatype CacheFaults = CacheFaults(readFails: bool, writeFails: set<string>)

  /** A failed write leaves the cache as it was. */
  function ApplyOp(entries: map<string, Entry>, op: CacheOp, now: int, failed: bool): map<string, Entry>
  {
    if failed then entries
    else match op
      case Put(k, p, ttl) => entries[k := Entry(p, Expiry(now, ttl))]
      case Remove(k) => entries - {k}
  }

  /** The writes in order; those on a key in `fails` have no effect. */
  function ApplyAll(entries: map<string, Entry>, ops: seq<CacheOp>, now: int, fails: set<string>): map<string, Entry>
    decreases |ops|
  {
    if ops == [] then entries
    else
      var last := ops[|ops| - 1];
      ApplyOp(ApplyAll(entries, ops[..|ops| - 1], now, fails), last, now, last.key in fails)
  }

  function KeysOf(ops: seq<CacheOp>): set<string>
  {
    set op | op in ops :: op.key
  }

  lemma KeysOfSplit(ops: seq<CacheOp>)
    requires ops != []
    ensures KeysOf(ops) == KeysOf(ops[..|ops| - 1]) + {ops[|ops| - 1].key}
  {
    var init := ops[..|ops| - 1];
    assert ops == init + [ops[|ops| - 1]];
    forall k | k in KeysOf(ops) ensures k in KeysOf(init) + {ops[|ops| - 1].key} {
      var op :| op in ops && op.key == k;
    }
  }

  /** A key no write touches keeps its entry, or its absence. */
  lemma {:induction false} ApplyAllElsewhere(entries: map<string, Entry>, ops: seq<CacheOp>, now: int, fails: set<string>, k: string)
    requires k !in KeysOf(ops)
    ensures var r := ApplyAll(entries, ops, now, fails);
      (k in r <==> k in entries) && (k in entries ==> r[k] == entries[k])
    decreases |ops|
  {
    if ops != [] {
      KeysOfSplit(ops);
      ApplyAllElsewhere(entries, ops[..|ops| - 1], now, fails, k);
    }
  }

  /** A run of deletions removes exactly the keys whose DEL did not fail. */
  lemma {:induction false} ApplyRemovals(entries: map<string, Entry>, ops: seq<CacheOp>, now: int, fails: set<string>)
    requires forall i :: 0 <= i < |ops| ==> ops[i].Remove?
    ensures ApplyAll(entries, ops, now, fails) == entries - (KeysOf(ops) - fails)
    decreases |ops|
  {
    if ops != [] {
      var init := ops[..|ops| - 1];
      var last := ops[|ops| - 1];
      KeysOfSplit(ops);
      ApplyRemovals(entries, init, now, fails);
      var before := entries - (KeysOf(init) - fails);
      if last.key in fails {
        assert KeysOf(ops) - fails == KeysOf(init) - fails;
      } else {
        assert before - {last.key} == entries - (KeysOf(ops) - fails);
      }
    }
  }

  /**
   * The cache server as seen through its client. Entries past their expiry
   * are kept in the map but never served, which is how expiry is observed.
   */
  class RedisCache {
    var entries: map<string, Entry>
    /** The configured time-to-live used for a SET that asks for none. */
    const defaultTtl: nat

    /**
     * A client attached to a server that may already hold entries, left by
     * earlier runs or other instances: connecting does not flush it.
     */
    constructor (defaultTtl: nat, existing: map<string, Entry>)
      ensures entries == existing && this.defaultTtl == defaultTtl
    {
      entries := existing;
      this.defaultTtl := defaultTtl;
    }

    method Get(key: string, now: int, fails: bool) returns (r: Reply)
      ensures r == Lookup(entries, key, now, fails)
    {
      if fails {
        return ReadError;
      }
      if key in entries && Live(entries[key], now) {
        return Value(entries[key].payload);
      }
      return Value(Blank);
    }

    /** A time-to-live of 0 falls back to the configured default. */
    method Set(key: string, value: Payload, ttl: nat, now: int, fails: bool) returns (ok: bool)
      modifies this
      ensures ok == !fails
      ensures ttl != 0 ==> entries == ApplyOp(old(entries), Put(key, value, ttl), now, fails)
      ensures ttl == 0 ==> entries == ApplyOp(old(entries), Put(key, value, defaultTtl), now, fails)
    {
      var effective := ttl;
      if effective == 0 {
        effective := defaultTtl;
      }
      ok := !fails;
      if ok {
        entries := entries[key := Entry(value, Expiry(now, effective))];
      }
    }

    method Delete(key: string, fails: bool) returns (ok: bool)
      modifies this
      ensures ok == !fails
      ensures entries == ApplyOp(old(entries), Remove(key), 0, fails)
    {
      ok := !fails;
      if ok {
        entries := entries - {key};
      }
    }
  }
}
