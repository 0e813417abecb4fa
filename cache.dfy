/**
 * `CacheManager` from api.py: a directory of pickled responses, one file per
 * request, each stamped with the time it was written and trusted for
 * `ttl_seconds` afterwards. The directory is kept as a map from cache key to
 * file contents and the clock is a parameter.
 */
module Cache {
  import opened Wrappers
  import opened Text
  import opened Sorting
  import opened Cleaning

  /** A query parameter value: `Union[str, int]`. */
  datatype ParamValue = Text(text: string) | Number(number: int)

  /** A parameter dictionary, in insertion order. */
  type Params = seq<(string, ParamValue)>

  /** A dictionary never holds two entries under one name. */
  ghost predicate Functional(p: Params) {
    forall x, y :: x in p && y in p && x.0 == y.0 ==> x == y
  }

  function ByName(entry: (string, ParamValue)): Key {
    Ascending(entry.0)
  }

  /** `f"{k}={v}"` */
  function Pair(entry: (string, ParamValue)): string {
    entry.0 + "=" + match entry.1 {
      case Text(t) => t
      case Number(n) => IntToString(n)
    }
  }

  /** `"&".join(...)` of the pairs, in the given order. */
  function JoinPairs(p: Params): string {
    if p == [] then ""
    else if |p| == 1 then Pair(p[0])
    else Pair(p[0]) + "&" + JoinPairs(p[1..])
  }

  /**
   * `_get_cache_key`: the URL, a `?`, and the parameters sorted by name. The
   * MD5 digest taken of this string is left out; the string itself is the key.
   */
  function CacheKey(url: string, params: Params): (r: string)
    ensures |r| > |url| && r[..|url| + 1] == url + "?"
  {
    url + "?" + JoinPairs(SortBy(params, ByName))
  }

  /** Two sorted lists of the same entries, no name twice, start with the same entry. */
  lemma {:induction false} SortedHeads(t: Params, u: Params)
    requires t != [] && u != []
    requires SortedBy(t, ByName) && SortedBy(u, ByName)
    requires multiset(t) == multiset(u)
    requires Functional(t)
    ensures t[0] == u[0]
  {
    assert t[0] in multiset(u) && u[0] in multiset(t);
    var i :| 0 <= i < |t| && t[i] == u[0];
    var j :| 0 <= j < |u| && u[j] == t[0];
    KeyLeRefl(ByName(t[0]));
    KeyLeRefl(ByName(u[0]));
    assert KeyLe(ByName(t[0]), ByName(t[i]));
    assert KeyLe(ByName(u[0]), ByName(u[j]));
    KeyLeAntisym(ByName(t[0]), ByName(u[0]));
    assert t[0] in t && u[0] in t;
  }

  /** Dropping equal heads keeps the remaining entries equal, sorted and functional. */
  lemma {:induction false} Tails(t: Params, u: Params)
    requires t != [] && u != [] && t[0] == u[0]
    requires SortedBy(t, ByName) && SortedBy(u, ByName)
    requires multiset(t) == multiset(u)
    requires Functional(t)
    ensures multiset(t[1..]) == multiset(u[1..])
    ensures SortedBy(t[1..], ByName) && SortedBy(u[1..], ByName)
    ensures Functional(t[1..])
  {
    assert t == [t[0]] + t[1..] && u == [u[0]] + u[1..];
    assert multiset(t) == multiset{t[0]} + multiset(t[1..]);
    assert multiset(u) == multiset{u[0]} + multiset(u[1..]);
    assert multiset(t[1..]) == multiset(t) - multiset{t[0]};
    assert multiset(u[1..]) == multiset(u) - multiset{u[0]};
    SortedTail(t);
    SortedTail(u);
    FunctionalTail(t);
  }

  lemma {:induction false} SortedTail(t: Params)
    requires t != [] && SortedBy(t, ByName)
    ensures SortedBy(t[1..], ByName)
  {
    forall a, b | 0 <= a < b < |t| - 1 ensures KeyLe(ByName(t[1..][a]), ByName(t[1..][b])) {
      assert t[1..][a] == t[a + 1] && t[1..][b] == t[b + 1];
    }
  }

  lemma {:induction false} FunctionalTail(t: Params)
    requires t != [] && Functional(t)
    ensures Functional(t[1..])
  {
    forall x, y | x in t[1..] && y in t[1..] && x.0 == y.0 ensures x == y {
      assert x in t && y in t;
    }
  }

  /**
   * Two sorted parameter lists holding the same entries, with no name twice,
   * are the same list.
   */
  lemma {:induction false} SortedParamsUnique(t: Params, u: Params)
    requires SortedBy(t, ByName) && SortedBy(u, ByName)
    requires multiset(t) == multiset(u)
    requires Functional(t)
    ensures t == u
    decreases |t|
  {
    if t == [] {
      assert |multiset(u)| == 0;
    } else {
      assert |multiset(u)| == |multiset(t)| > 0;
      SortedHeads(t, u);
      Tails(t, u);
      SortedParamsUnique(t[1..], u[1..]);
      assert t == [t[0]] + t[1..] && u == [u[0]] + u[1..];
    }
  }

  /**
   * The key does not depend on the order in which the parameters were
   * inserted: the same entries give the same key.
   */
  lemma {:induction false} CacheKeyOrderFree(url: string, p: Params, q: Params)
    requires Functional(p)
    requires multiset(p) == multiset(q)
    ensures CacheKey(url, p) == CacheKey(url, q)
  {
    var sp := SortBy(p, ByName);
    var sq := SortBy(q, ByName);
    assert forall x :: x in sp ==> x in p by {
      forall x | x in sp ensures x in p { assert x in multiset(sp); }
    }
    SortedParamsUnique(sp, sq);
  }

  /**
   * The key lists the `name=value` pairs joined by `&` in name order: for any
   * name-sorted arrangement of the entries, the key is the URL, a `?` and
   * that arrangement's pairs.
   */
  lemma {:induction false} CacheKeyOfSorted(url: string, p: Params, q: Params)
    requires Functional(p)
    requires SortedBy(q, ByName) && multiset(q) == multiset(p)
    ensures CacheKey(url, p) == url + "?" + JoinPairs(q)
  {
    var sp := SortBy(p, ByName);
    assert forall x :: x in sp ==> x in p by {
      forall x | x in sp ensures x in p { assert x in multiset(sp); }
    }
    SortedParamsUnique(sp, q);
  }

  // ---------------------------------------------------------------- files

  /**
   * One `.pkl` file. `Corrupt` fails to load with an error `get` catches
   * (`PickleError`, `KeyError`, `OSError`); `Unreadable` fails with one it does
   * not catch: `EOFError` for an empty file, `TypeError` for a payload that is
   * not a dictionary.
   */
  datatype Entry =
    | Intact(timestamp: real, data: seq<RawRecord>, url: string, params: Params)
    | Corrupt
    | Unreadable

  /**
   * What `get` should return for `key` at time `now`: the stored data when the
   * file loads and is at most `ttl` seconds old, and nothing otherwise.
   */
  function Lookup(files: map<string, Entry>, key: string, now: real, ttl: int): (r: Option<seq<RawRecord>>)
    ensures r.Some? <==> key in files && files[key].Intact? && now - files[key].timestamp <= ttl as real
    ensures r.Some? ==> r.value == files[key].data
  {
    if key !in files then None
    else match files[key]
      case Intact(stamp, data, _, _) => if now - stamp > ttl as real then None else Some(data)
      case _ => None
  }

  /** The files left after that `get`: a file that could not serve the request is deleted. */
  function AfterLookup(files: map<string, Entry>, key: string, now: real, ttl: int): (r: map<string, Entry>)
    ensures key in r <==> Lookup(files, key, now, ttl).Some?
    ensures forall k :: k in r ==> k in files && r[k] == files[k]
    ensures forall k :: k in files && k != key ==> k in r
  {
    if Lookup(files, key, now, ttl).Some? then files else files - {key}
  }

  /** The outcome of `get` as written: the data, `None`, or an exception that escapes it. */
  datatype Loaded = Hit(data: seq<RawRecord>) | Miss | Raises

  /**
   * `get` as written: an `Unreadable` file raises out of `get`; every other
   * file answers as `Lookup` says.
   */
  function Load(files: map<string, Entry>, key: string, now: real, ttl: int): (r: Loaded)
    ensures r.Raises? <==> key in files && files[key].Unreadable?
    ensures r.Hit? <==> Lookup(files, key, now, ttl).Some?
    ensures r.Hit? ==> r.data == Lookup(files, key, now, ttl).value
  {
    if key in files && files[key].Unreadable? then Raises
    else
      var found := Lookup(files, key, now, ttl);
      if found.Some? then Hit(found.value) else Miss
  }

  /**
   * The files left after `get` as written: the exception leaves before the
   * `unlink`, so a file that raises stays; otherwise as `AfterLookup`.
   */
  function AfterLoad(files: map<string, Entry>, key: string, now: real, ttl: int): (r: map<string, Entry>)
    ensures Load(files, key, now, ttl).Raises? ==> r == files
    ensures !Load(files, key, now, ttl).Raises? ==> r == AfterLookup(files, key, now, ttl)
  {
    if Load(files, key, now, ttl).Raises? then files else AfterLookup(files, key, now, ttl)
  }

  /**
   * How writing a cache file went: written; `open` failed, so the file was
   * not touched; or `pickle.dump` failed after `open(..., "wb")` had emptied
   * the file.
   */
  datatype WriteOutcome = Written | OpenFailed | DumpFailed

  /** The files after `set` stored `data` for the request at time `now`. */
  function Stored(files: map<string, Entry>, url: string, params: Params, data: seq<RawRecord>, now: real,
                  write: WriteOutcome): (r: map<string, Entry>)
    ensures r.Keys == if write.OpenFailed? then files.Keys else files.Keys + {CacheKey(url, params)}
    ensures forall k :: k in files && k != CacheKey(url, params) ==> r[k] == files[k]
    ensures write.Written? ==> r[CacheKey(url, params)] == Intact(now, data, url, params)
    ensures write.DumpFailed? ==> r[CacheKey(url, params)] == Unreadable
  {
    var key := CacheKey(url, params);
    match write
    case Written => files[key := Intact(now, data, url, params)]
    case OpenFailed => files
    case DumpFailed => files[key := Unreadable]
  }

  /**
   * As written, a `set` whose dump fails leaves an empty file under the key,
   * and from then on every `get` of that request raises: the file is never
   * deleted, so the request cannot be served again until `clear`.
   */
  lemma {:induction false} FailedDumpKeepsRaising(files: map<string, Entry>, url: string, params: Params,
                                                  data: seq<RawRecord>, stamp: real, now: real, later: real, ttl: int)
    ensures var key := CacheKey(url, params);
            var left := Stored(files, url, params, data, stamp, DumpFailed);
            && Load(left, key, now, ttl) == Raises
            && AfterLoad(left, key, now, ttl) == left
            && Load(AfterLoad(left, key, now, ttl), key, later, ttl) == Raises
  {
  }

  /**
   * Read as intended, the same empty file is a miss: it is deleted, and the
   * next `set` of the request can be served again.
   */
  lemma {:induction false} FailedDumpIsAMiss(files: map<string, Entry>, url: string, params: Params,
                                             data: seq<RawRecord>, stamp: real, now: real, ttl: int)
    ensures var key := CacheKey(url, params);
            var left := Stored(files, url, params, data, stamp, DumpFailed);
            && Lookup(left, key, now, ttl) == None
            && key !in AfterLookup(left, key, now, ttl)
  {
  }

  /** Storing a response and looking it up within the TTL returns that response. */
  lemma {:induction false} StoreThenLookup(files: map<string, Entry>, url: string, params: Params, data: seq<RawRecord>,
                        stamp: real, now: real, ttl: int)
    requires now - stamp <= ttl as real
    ensures Lookup(files[CacheKey(url, params) := Intact(stamp, data, url, params)],
                   CacheKey(url, params), now, ttl) == Some(data)
  {
  }

  /**
   * A response stored under one insertion order of the parameters is found
   * under any other order of the same entries.
   */
  lemma {:induction false} StoreThenLookupReordered(files: map<string, Entry>, url: string, p: Params, q: Params,
                                 data: seq<RawRecord>, stamp: real, now: real, ttl: int)
    requires Functional(p) && multiset(p) == multiset(q)
    requires now - stamp <= ttl as real
    ensures Lookup(files[CacheKey(url, p) := Intact(stamp, data, url, p)], CacheKey(url, q), now, ttl) == Some(data)
  {
    CacheKeyOrderFree(url, p, q);
  }

  /** A lookup that misses leaves no file behind, so the next lookup misses too. */
  lemma {:induction false} MissIsFinal(files: map<string, Entry>, key: string, now: real, later: real, ttl: int)
    requires Lookup(files, key, now, ttl).None?
    ensures Lookup(AfterLookup(files, key, now, ttl), key, later, ttl).None?
  {
  }

  /**
   * A hit at `now` is a hit at every earlier time after the write, and an
   * expired file stays expired.
   */
  lemma {:induction false} ExpiryIsMonotone(files: map<string, Entry>, key: string, now: real, later: real, ttl: int)
    requires now <= later
    ensures Lookup(files, key, later, ttl).Some? ==> Lookup(files, key, now, ttl).Some?
  {
  }

  /** The manager: an optional directory, a TTL, and the files in that directory. */
  class CacheManager {
    const cacheDir: Option<string>
    const ttlSeconds: int
    var files: map<string, Entry>

    /** `self.enabled = cache_dir is not None` */
    predicate Enabled()
    {
      cacheDir.Some?
    }

    /**
     * The directory is created when missing; cache files already in it are
     * kept and served.
     */
    constructor(cacheDir: Option<string>, ttlSeconds: int, existing: map<string, Entry>)
      ensures this.cacheDir == cacheDir && this.ttlSeconds == ttlSeconds
      ensures files == if cacheDir.Some? then existing else map[]
    {
      this.cacheDir := cacheDir;
      this.ttlSeconds := ttlSeconds;
      files := if cacheDir.Some? then existing else map[];
    }

    /**
     * `get` at time `now`, as written: a file that raises is left in place
     * and the exception leaves `get`.
     */
    method GetAsWritten(url: string, params: Params, now: real) returns (r: Loaded)
      modifies this
      ensures !Enabled() ==> r == Miss && files == old(files)
      ensures Enabled() ==> r == Load(old(files), CacheKey(url, params), now, ttlSeconds)
      ensures Enabled() ==> files == AfterLoad(old(files), CacheKey(url, params), now, ttlSeconds)
    {
      if cacheDir.None? {
        return Miss;
      }
      var key := CacheKey(url, params);
      if key !in files {
        return Miss;
      }
      var entry := files[key];
      if entry.Unreadable? {
        return Raises;
      }
      if entry.Corrupt? || now - entry.timestamp > ttlSeconds as real {
        files := files - {key};
        return Miss;
      }
      return Hit(entry.data);
    }

    /**
     * `get` at time `now` as intended: a file that cannot be loaded, whatever
     * the error, is deleted and counts as a miss.
     */
    method Get(url: string, params: Params, now: real) returns (r: Option<seq<RawRecord>>)
      modifies this
      ensures !Enabled() ==> r.None? && files == old(files)
      ensures Enabled() ==> r == Lookup(old(files), CacheKey(url, params), now, ttlSeconds)
      ensures Enabled() ==> files == AfterLookup(old(files), CacheKey(url, params), now, ttlSeconds)
    {
      if cacheDir.None? {
        return None;
      }
      var key := CacheKey(url, params);
      if key !in files {
        return None;
      }
      var entry := files[key];
      if !entry.Intact? || now - entry.timestamp > ttlSeconds as real {
        files := files - {key};
        return None;
      }
      return Some(entry.data);
    }

    /**
     * `set` at time `now`. `write` is how writing the file went; an `OSError`
     * is logged and not raised.
     */
    method Set(url: string, params: Params, data: seq<RawRecord>, now: real, write: WriteOutcome)
      modifies this
      ensures files == if Enabled() then Stored(old(files), url, params, data, now, write) else old(files)
    {
      if cacheDir.None? {
        return;
      }
      var key := CacheKey(url, params);
      match write {
        case Written => files := files[key := Intact(now, data, url, params)];
        case OpenFailed =>
        case DumpFailed => files := files[key := Unreadable];
      }
    }

    /** `clear`: every cache file is deleted when caching is on. */
    method Clear()
      modifies this
      ensures files == if Enabled() then map[] else old(files)
    {
      if cacheDir.Some? {
        files := map[];
      }
    }
  }
}
