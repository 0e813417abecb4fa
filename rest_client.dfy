/**
 * `GitHubAPI` from api.py: the REST client. One page of repositories is read
 * from the cache when a fresh copy is there and from the network otherwise;
 * `get_all_repos` walks the pages until a short one.
 */
module RestClient {
  import opened Wrappers
  import opened Validation
  import opened Cleaning
  import opened Cache

  const BaseUrl := "https://api.github.com"
  const TokenRequiredMessage := "GitHub token is required. Set GITHUB_TOKEN env var or pass token parameter."
  const InvalidTokenMessage := "Invalid GitHub token or insufficient permissions"
  const MaxPerPage := 100

  /** `token or os.getenv("GITHUB_TOKEN")`, which must be non-empty. */
  function ResolveToken(token: Option<string>, environment: Option<string>): (r: Result<string, string>)
    ensures r.Success? <==> Truthy(token) || Truthy(environment)
    ensures Truthy(token) ==> r == Success(token.value)
    ensures !Truthy(token) && Truthy(environment) ==> r == Success(environment.value)
    ensures r.Failure? ==> r.error == TokenRequiredMessage
  {
    var chosen := if Truthy(token) then token else environment;
    if !Truthy(chosen) then Failure(TokenRequiredMessage) else Success(chosen.value)
  }

  /** Whose repositories are listed. */
  datatype Owner = User | Organization

  /**
   * `urljoin(BASE_URL, "/users/{name}/repos")` or the `/orgs/` one, as plain
   * concatenation. The two agree only for a name without `/`, `?`, `#` or
   * dot segments, which urljoin would resolve or split off.
   */
  function ReposUrl(owner: Owner, name: string): (r: string)
    ensures |r| > |BaseUrl| + 6
    ensures |r| == |BaseUrl| + (if owner.User? then 7 else 6) + |name| + 6
    ensures r[..|BaseUrl|] == BaseUrl
    ensures r[|r| - 6..] == "/repos"
    ensures owner.User? ==> r[|BaseUrl|..|BaseUrl| + 7] == "/users/" && r[|BaseUrl| + 7..|r| - 6] == name
    ensures owner.Organization? ==> r[|BaseUrl|..|BaseUrl| + 6] == "/orgs/" && r[|BaseUrl| + 6..|r| - 6] == name
  {
    BaseUrl + (if owner.User? then "/users/" else "/orgs/") + name + "/repos"
  }

  /** The query: page size capped at 100, the page, newest updates first. */
  function PageParams(perPage: int, page: int): (r: Params)
    ensures Functional(r)
    ensures forall n :: ("per_page", Number(n)) in r ==> n <= MaxPerPage && n <= perPage
    ensures ("per_page", Number(if perPage < MaxPerPage then perPage else MaxPerPage)) in r
    ensures ("page", Number(page)) in r
    ensures ("sort", Text("updated")) in r && ("direction", Text("desc")) in r
  {
    [("per_page", Number(if perPage < MaxPerPage then perPage else MaxPerPage)),
     ("page", Number(page)),
     ("sort", Text("updated")),
     ("direction", Text("desc"))]
  }

  /** What the network gave for one request. */
  datatype Response =
    | Ok(body: seq<RawRecord>)
    /** A `RequestException`, with the status of its response when it has one. */
    | Failed(status: Option<int>)

  /**
   * What escapes a page fetch: the `ValueError` raised for a 401, or the
   * exception of a cache file that `get` does not catch.
   */
  datatype FetchError = ValueError(message: string) | CacheLoadError(key: string)

  /**
   * The uncached path: the cleaned body on success; a 401 becomes an error,
   * and every other failure an empty page.
   */
  function FromNetwork(response: Response): (r: Result<seq<RawRecord>, FetchError>)
    ensures r.Failure? <==> response == Failed(Some(401))
    ensures r.Failure? ==> r.error == ValueError(InvalidTokenMessage)
    ensures response.Ok? ==> r == Success(CleanAll(response.body))
    ensures response.Failed? && response.status != Some(401) ==> r == Success([])
  {
    match response
    case Ok(body) => Success(CleanAll(body))
    case Failed(status) =>
      if status == Some(401) then Failure(ValueError(InvalidTokenMessage)) else Success([])
  }

  /**
   * A page served from the cache equals the page the network answer that
   * filled the cache produced: the cleaned body is stored and cleaning it
   * again changes nothing.
   */
  lemma {:induction false} CachedPageMatchesNetwork(files: map<string, Entry>, owner: Owner, name: string, perPage: int, page: int,
                                 body: seq<RawRecord>, stamp: real, now: real, ttl: int)
    requires now - stamp <= ttl as real
    ensures var url := ReposUrl(owner, name);
            var params := PageParams(perPage, page);
            var key := CacheKey(url, params);
            var hit := Load(Stored(files, url, params, CleanAll(body), stamp, Written), key, now, ttl);
            hit.Hit? && Success(CleanAll(hit.data)) == FromNetwork(Ok(body))
  {
    var url := ReposUrl(owner, name);
    var params := PageParams(perPage, page);
    StoreThenLookup(files, url, params, CleanAll(body), stamp, now, ttl);
    CleanAllIdempotent(body);
  }

  /** The client: a resolved token and its cache. */
  class GitHubApi {
    const token: string
    const cache: CacheManager

    constructor(token: string, cacheDir: Option<string>, cacheTtl: int, existing: map<string, Entry>)
      ensures this.token == token
      ensures fresh(cache) && cache.cacheDir == cacheDir && cache.ttlSeconds == cacheTtl
      ensures cache.files == if cacheDir.Some? then existing else map[]
    {
      this.token := token;
      cache := new CacheManager(cacheDir, cacheTtl, existing);
    }

    /**
     * `get_user_repos` / `get_org_repos` at time `now`. `response` is what the
     * network would answer and is used only on a cache miss; `write` is how
     * writing the cache file goes. The cache is read with `get` as written,
     * whose uncaught exception leaves this method too.
     */
    method FetchRepos(owner: Owner, name: string, perPage: int, page: int, now: real, response: Response,
                      write: WriteOutcome)
      returns (r: Result<seq<RawRecord>, FetchError>)
      modifies cache
      ensures var url := ReposUrl(owner, name);
              var params := PageParams(perPage, page);
              var key := CacheKey(url, params);
              var load := if cache.Enabled() then Load(old(cache.files), key, now, cache.ttlSeconds) else Miss;
              var kept := if cache.Enabled() then AfterLoad(old(cache.files), key, now, cache.ttlSeconds)
                          else old(cache.files);
              && (load.Raises? ==> r == Failure(CacheLoadError(key)) && cache.files == old(cache.files))
              && (load.Hit? ==> r == Success(CleanAll(load.data)) && cache.files == kept)
              && (load.Miss? ==> r == FromNetwork(response))
              && (load.Miss? ==>
                    cache.files == if response.Ok? && cache.Enabled()
                                   then Stored(kept, url, params, CleanAll(response.body), now, write)
                                   else kept)
    {
      var url := ReposUrl(owner, name);
      var params := PageParams(perPage, page);
      var cached := cache.GetAsWritten(url, params, now);
      if cached.Raises? {
        return Failure(CacheLoadError(CacheKey(url, params)));
      }
      if cached.Hit? {
        var cleanedCached := CleanRepositoryData(cached.data);
        return Success(cleanedCached);
      }
      match response {
        case Ok(body) =>
          var cleaned := CleanRepositoryData(body);
          cache.Set(url, params, cleaned, now, write);
          return Success(cleaned);
        case Failed(status) =>
          if status == Some(401) {
            return Failure(ValueError(InvalidTokenMessage));
          }
          return Success([]);
      }
    }
  }

  /** Resolves the token and builds the client, or raises. */
  method Connect(token: Option<string>, environment: Option<string>, cacheDir: Option<string>, cacheTtl: int,
                 existing: map<string, Entry>) returns (r: Result<GitHubApi, string>)
    ensures r.Success? <==> ResolveToken(token, environment).Success?
    ensures r.Failure? ==> r.error == TokenRequiredMessage
    ensures r.Success? ==> fresh(r.value) && r.value.token == ResolveToken(token, environment).value
                           && r.value.cache.cacheDir == cacheDir && r.value.cache.ttlSeconds == cacheTtl
  {
    var resolved := ResolveToken(token, environment);
    if resolved.Failure? {
      return Failure(resolved.error);
    }
    var client := new GitHubApi(resolved.value, cacheDir, cacheTtl, existing);
    return Success(client);
  }

  // ---------------------------------------------------------------- pagination

  /** A page source: what `get_user_repos` / `get_org_repos` give for each page number. */
  type PageSource = int -> Result<seq<RawRecord>, FetchError>

  /** A page after which `get_all_repos` stops: an error, or fewer than 100 records. */
  predicate Ends(p: Result<seq<RawRecord>, FetchError>) {
    p.Failure? || |p.value| < MaxPerPage
  }

  /** The first page from `page` on that ends the walk. */
  function FirstEnd(pageAt: PageSource, page: nat, last: nat): (k: nat)
    requires page <= last && Ends(pageAt(last))
    ensures page <= k <= last && Ends(pageAt(k))
    ensures forall q :: page <= q < k ==> !Ends(pageAt(q))
    decreases last - page
  {
    if Ends(pageAt(page)) then page else FirstEnd(pageAt, page + 1, last)
  }

  /**
   * The walk from `page` on: each full page is appended and the next one
   * fetched; a short or empty page is the last; an error is raised. `last`
   * is any page known to end the walk, which the loop needs to terminate.
   */
  function Paginate(pageAt: PageSource, page: nat, last: nat): Result<seq<RawRecord>, FetchError>
    requires page <= last && Ends(pageAt(last))
    decreases last - page
  {
    var repos :- pageAt(page);
    if |repos| < MaxPerPage then Success(repos)
    else
      var rest :- Paginate(pageAt, page + 1, last);
      Success(repos + rest)
  }

  /** The pages `page` .. `k - 1` laid end to end. */
  function Collected(pageAt: PageSource, page: nat, k: nat): seq<RawRecord>
    requires forall q :: page <= q < k ==> pageAt(q).Success?
    decreases k - page
  {
    if page >= k then [] else pageAt(page).value + Collected(pageAt, page + 1, k)
  }

  /** Which bound is used to show termination does not change the outcome. */
  lemma {:induction false} PaginateBoundFree(pageAt: PageSource, page: nat, last: nat, last': nat)
    requires page <= last && Ends(pageAt(last))
    requires page <= last' && Ends(pageAt(last'))
    ensures Paginate(pageAt, page, last) == Paginate(pageAt, page, last')
    decreases last - page
  {
    if pageAt(page).Success? && |pageAt(page).value| >= MaxPerPage {
      PaginateBoundFree(pageAt, page + 1, last, last');
    }
  }

  /**
   * The walk succeeds exactly when every page up to the first short one
   * does, and then returns those pages concatenated in page order.
   */
  lemma {:induction false} PaginateIsConcatenation(pageAt: PageSource, page: nat, last: nat)
    requires page <= last && Ends(pageAt(last))
    ensures var k := FirstEnd(pageAt, page, last);
            Paginate(pageAt, page, last).Success? <==> forall q :: page <= q <= k ==> pageAt(q).Success?
    ensures var k := FirstEnd(pageAt, page, last);
            Paginate(pageAt, page, last).Success? ==> Paginate(pageAt, page, last).value == Collected(pageAt, page, k + 1)
    decreases last - page
  {
    var k := FirstEnd(pageAt, page, last);
    if k == page {
      if pageAt(page).Success? {
        assert Collected(pageAt, page + 1, k + 1) == [];
      }
    } else {
      assert !Ends(pageAt(page));
      PaginateIsConcatenation(pageAt, page + 1, last);
      assert FirstEnd(pageAt, page + 1, last) == k;
    }
  }

  /** `get_all_repos`: the `while True` loop over the pages, starting at page 1. */
  method GetAllRepos(pageAt: PageSource, ghost last: nat) returns (r: Result<seq<RawRecord>, FetchError>)
    requires 1 <= last && Ends(pageAt(last))
    ensures r == Paginate(pageAt, 1, last)
  {
    var allRepos: seq<RawRecord> := [];
    var page: nat := 1;
    assert Paginate(pageAt, 1, last).Success? ==> [] + Paginate(pageAt, 1, last).value == Paginate(pageAt, 1, last).value;
    while true
      invariant 1 <= page <= last
      invariant Paginate(pageAt, 1, last) == Prepend(allRepos, Paginate(pageAt, page, last))
      decreases last - page
    {
      var fetched := pageAt(page);
      if fetched.Failure? {
        return Failure(fetched.error);
      }
      var repos := fetched.value;
      if |repos| == 0 {
        assert allRepos + repos == allRepos;
        break;
      }
      var gathered := allRepos + repos;
      if |repos| < MaxPerPage {
        allRepos := gathered;
        break;
      }
      ghost var rest := Paginate(pageAt, page + 1, last);
      assert rest.Success? ==> allRepos + (repos + rest.value) == gathered + rest.value;
      allRepos := gathered;
      page := page + 1;
    }
    return Success(allRepos);
  }

  /** Helper for the loop invariant: what is gathered so far, in front of the rest of the walk. */
  function Prepend(prefix: seq<RawRecord>, rest: Result<seq<RawRecord>, FetchError>): Result<seq<RawRecord>, FetchError> {
    if rest.Failure? then rest else Success(prefix + rest.value)
  }
}
