/**
 * The file-backed response cache of src/services/BaseCache.ts. The cache
 * directory is a map from file names to what each file holds once read and
 * parsed; the clock is the `now` parameter, in milliseconds. The key a
 * subclass derives from its parameters is passed in as a string.
 */
module Caches {
  import opened Wrappers
  import opened Records
  import opened Values
  import opened Strings
  import opened Sorting
  import opened Json

  /** A cache file: the entry it holds, or a file that cannot be read or parsed. */
  datatype CacheFile = Entry(data: Value, timestamp: int, ttl: int) | Unreadable

  type Directory = map<string, CacheFile>

  /** 24 hours in milliseconds. */
  const DefaultTtl := 24 * 60 * 60 * 1000

  /** An entry is expired once it is strictly older than its time to live. */
  predicate Expired(file: CacheFile, now: int)
    requires file.Entry?
  {
    now - file.timestamp > file.ttl
  }

  /** `getCachePath(key)` within the cache directory. */
  function FileName(key: string): string
  {
    key + ".json"
  }

  /** `ttl || defaultTtl`: an absent or zero time to live falls back to the default. */
  function EffectiveTtl(ttl: Option<int>, defaultTtl: int): (r: int)
    ensures ttl.Some? && ttl.value != 0 ==> r == ttl.value
    ensures ttl.None? || ttl.value == 0 ==> r == defaultTtl
  {
    if ttl.Some? && ttl.value != 0 then ttl.value else defaultTtl
  }

  /**
   * `get`: the data of a live entry; `null` for a missing or unreadable file;
   * an expired entry is deleted and gives `null`.
   */
  function Lookup(files: Directory, key: string, now: int): (r: (Option<Value>, Directory))
    ensures r.1 == files || r.1 == files - {FileName(key)}
    ensures r.0.Some? ==>
      FileName(key) in files && files[FileName(key)].Entry? &&
      r.0.value == files[FileName(key)].data && !Expired(files[FileName(key)], now) && r.1 == files
  {
    var name := FileName(key);
    if name !in files then (None, files)
    else
      match files[name]
      case Unreadable => (None, files)
      case Entry(data, timestamp, ttl) =>
        if Expired(files[name], now) then (None, files - {name})
        else (Some(data), files)
  }

  /** `set`: the entry written for the key, stamped with the current time; the file holds the data's JSON, so it reads back round-tripped. */
  function Store(files: Directory, key: string, data: Value, ttl: Option<int>, defaultTtl: int, now: int): (r: Directory)
    ensures r.Keys == files.Keys + {FileName(key)}
    ensures r[FileName(key)].Entry? && r[FileName(key)].timestamp == now
    ensures forall n | n in files && n != FileName(key) :: r[n] == files[n]
  {
    files[FileName(key) := Entry(Reparse(data), now, EffectiveTtl(ttl, defaultTtl))]
  }

  /** What `cleanup` deletes: a '.json' file that is unreadable or expired. */
  predicate Doomed(name: string, file: CacheFile, now: int)
  {
    EndsWith(name, ".json") && (file.Unreadable? || Expired(file, now))
  }

  function Stale(files: Directory, now: int): (r: set<string>)
    ensures r <= files.Keys
    ensures forall n | n in r :: EndsWith(n, ".json")
  {
    set n | n in files && Doomed(n, files[n], now)
  }

  /** Taking one more element out of the unvisited set adds it to the visited part of `s` exactly when it is in `s`. */
  lemma VisitOne(s: set<string>, todo: set<string>, n: string)
    requires n in todo
    ensures n in s ==> s - (todo - {n}) == (s - todo) + {n} && n !in s - todo
    ensures n !in s ==> s - (todo - {n}) == s - todo
  {
  }

  /** `BaseCache` over its directory. */
  class BaseCache {
    const serviceName: string
    const cacheDir: string
    const defaultTtl: int
    var files: Directory

    /** `cacheDir` defaults to `./cache/<service name in lower case>`, the time to live to 24 hours. */
    constructor (serviceName: string, cacheDir: Option<string>, defaultTtl: Option<int>, files: Directory)
      ensures this.serviceName == serviceName && this.files == files
      ensures this.cacheDir == if cacheDir.Some? && cacheDir.value != "" then cacheDir.value else "./cache/" + ToLower(serviceName)
      ensures this.defaultTtl == defaultTtl.GetOr(DefaultTtl)
    {
      this.serviceName := serviceName;
      this.cacheDir := if cacheDir.Some? && cacheDir.value != "" then cacheDir.value else "./cache/" + ToLower(serviceName);
      this.defaultTtl := defaultTtl.GetOr(DefaultTtl);
      this.files := files;
    }

    method Get(key: string, now: int) returns (r: Option<Value>)
      modifies this
      ensures (r, files) == Lookup(old(files), key, now)
    {
      var name := FileName(key);
      if name !in files {
        return None;
      }
      var file := files[name];
      if file.Unreadable? {
        return None;
      }
      if now - file.timestamp > file.ttl {
        files := files - {name};
        return None;
      }
      return Some(file.data);
    }

    method Set(key: string, data: Value, ttl: Option<int>, now: int)
      modifies this
      ensures files == Store(old(files), key, data, ttl, defaultTtl, now)
    {
      files := files[FileName(key) := Entry(Reparse(data), now, if ttl.Some? && ttl.value != 0 then ttl.value else defaultTtl)];
    }

    /** `cleanup`: deletes every unreadable or expired '.json' file and counts them; every other file stays. */
    method Cleanup(now: int) returns (count: nat)
      modifies this
      ensures files == old(files) - Stale(old(files), now)
      ensures count == |Stale(old(files), now)|
    {
      files, count := Sweep(files, now);
    }
  }

  /** Removing one more key from a map is removing the union. */
  lemma RemoveOneMore(m: Directory, gone: set<string>, n: string)
    ensures m - gone - {n} == m - (gone + {n})
  {
  }

  /** The loop of `cleanup` over the directory listing, in any order. */
  method Sweep(all: Directory, now: int) returns (remaining: Directory, count: nat)
    ensures remaining == all - Stale(all, now)
    ensures count == |Stale(all, now)|
  {
    remaining := all;
    var todo := all.Keys;
    count := 0;
    ghost var stale := Stale(all, now);
    ghost var removed: set<string> := {};
    while todo != {}
      invariant todo <= all.Keys
      invariant removed == stale - todo
      invariant remaining == all - removed
      invariant count == |removed|
      decreases |todo|
    {
      var name :| name in todo;
      var file := all[name];
      VisitOne(stale, todo, name);
      if EndsWith(name, ".json") && (file.Unreadable? || now - file.timestamp > file.ttl) {
        assert name in stale;
        RemoveOneMore(all, removed, name);
        remaining := remaining - {name};
        removed := removed + {name};
        count := count + 1;
      } else {
        assert name !in stale;
      }
      todo := todo - {name};
    }
    assert stale - {} == stale;
  }

  // ---------------------------------------------------------------- properties

  /** A key with no file gives `null` and changes nothing. */
  lemma GetMissing(files: Directory, key: string, now: int)
    requires FileName(key) !in files
    ensures Lookup(files, key, now) == (None, files)
  {
  }

  /** An entry exactly as old as its time to live is still a hit; one millisecond older, it is deleted and gives `null`. */
  lemma ExpiryIsStrict(files: Directory, key: string, data: Value, t: int, ttl: int)
    requires FileName(key) in files && files[FileName(key)] == Entry(data, t, ttl)
    ensures Lookup(files, key, t + ttl) == (Some(data), files)
    ensures Lookup(files, key, t + ttl + 1) == (None, files - {FileName(key)})
    ensures FileName(key) !in Lookup(files, key, t + ttl + 1).1
  {
  }

  /** A file that cannot be read or parsed gives `null` instead of an error, and stays. */
  lemma UnreadableMisses(files: Directory, key: string, now: int)
    requires FileName(key) in files && files[FileName(key)].Unreadable?
    ensures Lookup(files, key, now) == (None, files)
  {
  }

  /**
   * `get` after `set` with the same key returns the data's JSON round trip
   * until the time to live has passed, and then nothing; plain JSON data
   * comes back as it was.
   */
  lemma GetAfterSet(files: Directory, key: string, data: Value, ttl: Option<int>, defaultTtl: int, t: int, now: int)
    ensures var stored := Store(files, key, data, ttl, defaultTtl, t);
      Lookup(stored, key, now).0 == if now - t <= EffectiveTtl(ttl, defaultTtl) then Some(Reparse(data)) else None
    ensures WellFormed(data) && Plain(data) && now - t <= EffectiveTtl(ttl, defaultTtl) ==>
      Lookup(Store(files, key, data, ttl, defaultTtl, t), key, now).0 == Some(data)
  {
    if WellFormed(data) && Plain(data) {
      ReparsePlain(data);
    }
  }

  /** Cleanup keeps exactly the files that are not '.json' or hold a live entry, and counts what it deletes. */
  lemma CleanupKeepsLive(files: Directory, now: int, name: string)
    requires name in files
    ensures name in files - Stale(files, now) <==> !Doomed(name, files[name], now)
  {
  }

  // ---------------------------------------------------------------- cache keys

  /** `Object.keys(params).sort().reduce(...)`: the same entries with their keys in sorted order. */
  function SortedParams(params: Rec<Value>): (r: Rec<Value>)
    requires Valid(params)
    ensures Valid(r) && Sorted(r.keys) && r.fields == params.fields
  {
    var ks := Sort(params.keys);
    DistinctByMultiset(params.keys, ks);
    assert forall k :: k in ks <==> k in params.keys by {
      forall k ensures k in ks <==> k in params.keys {
        assert k in ks <==> k in multiset(ks);
        assert k in params.keys <==> k in multiset(params.keys);
      }
    }
    Rec(ks, params.fields)
  }

  lemma KeysAreFields(r: Rec<Value>)
    requires Valid(r)
    ensures forall k :: k in r.keys <==> k in r.fields
  {
    forall k ensures k in r.keys <==> k in r.fields {
      assert k in r.keys <==> k in (set x | x in r.keys);
    }
  }

  /** Two parameter objects with the same entries, in whatever order, sort to the same object. */
  lemma SortedParamsOrderFree(p: Rec<Value>, q: Rec<Value>)
    requires Valid(p) && Valid(q) && p.fields == q.fields
    ensures SortedParams(p) == SortedParams(q)
  {
    KeysAreFields(p);
    KeysAreFields(q);
    SortOrderIndependent(p.keys, q.keys);
  }
}
