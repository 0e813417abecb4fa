/**
 * `GitHubAPI` from core/api.py: the client over PyGithub. The library calls
 * are parameters: each call either returns or raises one of the exceptions
 * the client distinguishes.
 */
module GitHubClient {
  import opened Wrappers
  import opened Text
  import opened Sequences
  import opened Repositories
  import Stats
  import RestClient

  /** An exception out of PyGithub or requests; `text` is `str(e)`. */
  datatype Raised =
    | GithubError(status: int, text: string)
    | Timeout
    | ConnectionFailure
    | Unexpected(text: string)

  /** One call into the library. */
  datatype Outcome<T> = Returned(value: T) | Threw(error: Raised)

  const InvalidTokenMessage := "Invalid GitHub token. Please check your token and try again."
  const RateLimitMessage := "GitHub API rate limit exceeded. " + "Please wait before trying again. "
                            + "Consider using a personal access token " + "for higher limits."
  const ForbiddenMessage := "GitHub API access forbidden. " + "Your token may lack required permissions."
  const NotFoundMessage := "GitHub user or organization not found. Please check the name and try again."
  const NetworkMessage := "Network error while fetching repositories. Check your internet connection."
  const MaxRetries := 3

  // ---------------------------------------------------------------- messages

  /** `_handle_github_exception`: it always raises; this is the `ValueError` message. */
  function HandleGithubException(status: int, text: string, operation: string): (r: string)
    ensures status == 401 ==> r == InvalidTokenMessage
    ensures status == 403 ==> r == if Contains(Lower(text), "rate limit") then RateLimitMessage else ForbiddenMessage
    ensures status == 404 ==> r == NotFoundMessage
    ensures status == 422 ==> r == "Invalid request: " + text
    ensures status == 429 ==> r == RateLimitMessage
    ensures status !in {401, 403, 404, 422, 429} ==> r == "GitHub API error during " + operation + ": " + text
  {
    if status == 401 then InvalidTokenMessage
    else if status == 403 then
      if Contains(Lower(text), "rate limit") then RateLimitMessage else ForbiddenMessage
    else if status == 404 then NotFoundMessage
    else if status == 422 then "Invalid request: " + text
    else if status == 429 then RateLimitMessage
    else "GitHub API error during " + operation + ": " + text
  }

  /** Two strings that differ at a position inside both prefixes differ. */
  lemma {:induction false} DifferAt(a: string, b: string, c: string, d: string, i: nat)
    requires i < |a| && i < |c| && a[i] != c[i]
    ensures a + b != c + d
  {
    assert (a + b)[i] == a[i] && (c + d)[i] == c[i];
  }

  /**
   * The rate-limit message comes out exactly for a 429, and for a 403 whose
   * text mentions the rate limit in any letter case.
   */
  lemma {:induction false} RateLimitMessageIff(status: int, text: string, operation: string)
    ensures HandleGithubException(status, text, operation) == RateLimitMessage
        <==> status == 429 || (status == 403 && Contains(Lower(text), "rate limit"))
  {
    if status == 422 {
      DifferAt("Invalid request: ", text, RateLimitMessage, [], 0);
      assert RateLimitMessage + [] == RateLimitMessage;
    } else if status !in {401, 403, 404, 429} {
      DifferAt("GitHub API error during ", operation + ": " + text, RateLimitMessage, [], 11);
      assert RateLimitMessage + [] == RateLimitMessage;
      assert "GitHub API error during " + operation + ": " + text == "GitHub API error during " + (operation + ": " + text);
    } else if status == 403 {
      assert ForbiddenMessage[11] != RateLimitMessage[11];
    }
  }

  /** The messages `__init__` raises when the connection test fails. */
  function ConnectFailure(error: Raised, timeout: int): (r: string)
    ensures error.Timeout? ==> r == "Connection to GitHub API timed out after " + IntToString(timeout) + " seconds"
    ensures error.ConnectionFailure? ==> r == "Failed to connect to GitHub API. Check your internet connection."
    ensures error.GithubError? && error.status == 401 ==> r == InvalidTokenMessage
    ensures error.GithubError? && error.status == 403 ==> r == ForbiddenMessage
    ensures error.GithubError? && error.status != 401 && error.status != 403
            ==> r == "GitHub API error: " + error.text
    ensures error.Unexpected? ==> r == "Unexpected error connecting to GitHub: " + error.text
  {
    match error
    case Timeout => "Connection to GitHub API timed out after " + IntToString(timeout) + " seconds"
    case ConnectionFailure => "Failed to connect to GitHub API. Check your internet connection."
    case GithubError(status, text) =>
      if status == 401 then InvalidTokenMessage
      else if status == 403 then ForbiddenMessage
      else "GitHub API error: " + text
    case Unexpected(text) => "Unexpected error connecting to GitHub: " + text
  }

  /**
   * The connection test reports a 401 as the fetches do, but reports every
   * 403 as forbidden, even one caused by the rate limit.
   */
  lemma {:induction false} ConnectAgreesWithFetch(text: string, operation: string)
    ensures ConnectFailure(GithubError(401, text), 30) == HandleGithubException(401, text, operation)
    ensures !Contains(Lower(text), "rate limit")
            ==> ConnectFailure(GithubError(403, text), 30) == HandleGithubException(403, text, operation)
    ensures Contains(Lower(text), "rate limit")
            ==> ConnectFailure(GithubError(403, text), 30) != HandleGithubException(403, text, operation)
  {
    if Contains(Lower(text), "rate limit") {
      assert ForbiddenMessage[11] != RateLimitMessage[11];
    }
  }

  /** What a failed fetch of one page raises, for a user or an organization. */
  function FetchFailure(error: Raised, owner: RestClient.Owner, name: string): (r: string)
    ensures error.GithubError? ==> r == HandleGithubException(error.status, error.text,
              if owner.User? then "fetching repositories for user " + name
              else "fetching repositories for organization " + name)
    ensures error.Timeout? && owner.User? ==> r == "Request timed out while fetching repositories for " + name
    ensures error.Timeout? && owner.Organization?
            ==> r == "Request timed out while fetching repositories for organization " + name
    ensures error.ConnectionFailure? ==> r == NetworkMessage
    ensures error.Unexpected? ==> r == "Unexpected error fetching repositories: " + error.text
  {
    match error
    case GithubError(status, text) =>
      HandleGithubException(status, text,
        if owner.User? then "fetching repositories for user " + name
        else "fetching repositories for organization " + name)
    case Timeout =>
      if owner.User? then "Request timed out while fetching repositories for " + name
      else "Request timed out while fetching repositories for organization " + name
    case ConnectionFailure => NetworkMessage
    case Unexpected(text) => "Unexpected error fetching repositories: " + text
  }

  /** What a failed `get_all_repos` raises; the operation names only the login. */
  function ListingFailure(error: Raised, name: string): (r: string)
    ensures error.GithubError? ==> r == HandleGithubException(error.status, error.text, "fetching repositories for " + name)
    ensures error.Timeout? ==> r == "Request timed out while fetching repositories for " + name
    ensures error.ConnectionFailure? ==> r == NetworkMessage
    ensures error.Unexpected? ==> r == "Unexpected error fetching repositories: " + error.text
  {
    match error
    case GithubError(status, text) => HandleGithubException(status, text, "fetching repositories for " + name)
    case Timeout => "Request timed out while fetching repositories for " + name
    case ConnectionFailure => NetworkMessage
    case Unexpected(text) => "Unexpected error fetching repositories: " + text
  }

  // ---------------------------------------------------------------- retry

  function Pow2(n: nat): (r: nat)
    ensures r >= 1
  {
    if n == 0 then 1 else 2 * Pow2(n - 1)
  }

  predicate IsRateLimited<T>(o: Outcome<T>) {
    o.Threw? && o.error.GithubError? && o.error.status == 429
  }

  function AsResult<T>(o: Outcome<T>): Result<T, Raised> {
    match o
    case Returned(v) => Success(v)
    case Threw(e) => Failure(e)
  }

  /**
   * `_retry_on_rate_limit`: `callAt(i)` is what the `i`-th call gives, and
   * `delays` the seconds slept between calls. Every call but the last was
   * rate limited and was followed by a sleep of 1, then 2 seconds; the last
   * call, at most the third, is the one whose outcome is passed on, and it
   * is not rate limited unless it is the third.
   */
  method RetryOnRateLimit<T>(callAt: nat -> Outcome<T>) returns (r: Result<T, Raised>, delays: seq<nat>)
    ensures |delays| < MaxRetries
    ensures forall i :: 0 <= i < |delays| ==> delays[i] == Pow2(i) && IsRateLimited(callAt(i))
    ensures |delays| < MaxRetries - 1 ==> !IsRateLimited(callAt(|delays|))
    ensures r == AsResult(callAt(|delays|))
  {
    delays := [];
    var attempt: nat := 0;
    while true
      invariant attempt < MaxRetries && |delays| == attempt
      invariant forall i :: 0 <= i < attempt ==> delays[i] == Pow2(i) && IsRateLimited(callAt(i))
      decreases MaxRetries - attempt
    {
      var outcome := callAt(attempt);
      if outcome.Returned? {
        return Success(outcome.value), delays;
      }
      var e := outcome.error;
      if e.GithubError? && e.status == 429 && attempt < MaxRetries - 1 {
        delays := delays + [Pow2(attempt)];
        attempt := attempt + 1;
        continue;
      }
      return Failure(e), delays;
    }
  }

  // ---------------------------------------------------------------- pages

  /** `all_repos[(page - 1) * per_page : (page - 1) * per_page + per_page]` with Python slicing. */
  function PageOf<T>(all: seq<T>, perPage: int, page: int): (r: seq<T>)
    ensures perPage >= 0 ==> |r| <= perPage
    ensures page >= 1 && perPage >= 0 ==>
      r == all[Min((page - 1) * perPage, |all|)..Min(page * perPage, |all|)]
  {
    Slice(all, (page - 1) * perPage, (page - 1) * perPage + perPage)
  }

  /** Pages 1 .. k laid end to end are the first k pages' worth of the listing. */
  lemma {:induction false} PagesTile<T>(all: seq<T>, perPage: nat, k: nat)
    ensures Pages(all, perPage, k) == all[..Min(k * perPage, |all|)]
  {
    if k > 0 {
      PagesTile(all, perPage, k - 1);
      var lo, hi := PageBounds(all, perPage, k);
      assert all[..hi] == all[..lo] + all[lo..hi];
    }
  }

  /** Page `k` runs from where page `k - 1` ends to where page `k` ends. */
  lemma {:induction false} PageBounds<T>(all: seq<T>, perPage: nat, k: nat) returns (lo: nat, hi: nat)
    requires k > 0
    ensures lo == Min((k - 1) * perPage, |all|) && hi == Min(k * perPage, |all|)
    ensures lo <= hi <= |all|
    ensures PageOf(all, perPage, k) == all[lo..hi]
  {
    var start := (k - 1) * perPage;
    assert k * perPage == start + perPage;
    lo, hi := Min(start, |all|), Min(start + perPage, |all|);
  }

  function Pages<T>(all: seq<T>, perPage: nat, k: nat): seq<T> {
    if k == 0 then [] else Pages(all, perPage, k - 1) + PageOf(all, perPage, k)
  }

  /** The message for a blank user or organization name. */
  function EmptyOwnerMessage(owner: RestClient.Owner): string {
    if owner.User? then "Username cannot be empty" else "Organization name cannot be empty"
  }

  /**
   * `get_user_repos` / `get_org_repos`: a blank name is refused before any
   * call; otherwise the whole listing is fetched with retries and one page
   * is cut out of it.
   */
  method GetRepos(owner: RestClient.Owner, name: string, perPage: int, page: int,
                  callAt: nat -> Outcome<seq<Repo>>)
    returns (r: Result<seq<Repo>, string>, delays: seq<nat>)
    ensures AllSpace(name) ==> delays == [] && r == Failure(EmptyOwnerMessage(owner))
    ensures !AllSpace(name) ==> (
      && |delays| < MaxRetries
      && match callAt(|delays|)
         case Returned(all) => r == Success(PageOf(all, perPage, page))
         case Threw(e) => r == Failure(FetchFailure(e, owner, name)))
    ensures !AllSpace(name) ==> forall i :: 0 <= i < |delays| ==> delays[i] == Pow2(i) && IsRateLimited(callAt(i))
    ensures !AllSpace(name) && |delays| < MaxRetries - 1 ==> !IsRateLimited(callAt(|delays|))
  {
    StripEmpty(name);
    if name == [] || Strip(name) == [] {
      return Failure(EmptyOwnerMessage(owner)), [];
    }
    var fetched;
    fetched, delays := RetryOnRateLimit(callAt);
    match fetched
    case Failure(e) =>
      r := Failure(FetchFailure(e, owner, name));
    case Success(all) =>
      r := Success(PageOf(all, perPage, page));
  }

  // ---------------------------------------------------------------- all repositories

  /**
   * A lazily paged listing: the repositories it yields, then, if fetching
   * the next one fails, that failure.
   */
  datatype Listing = Listing(items: seq<Repo>, failure: Option<Raised>)

  /**
   * What the `enumerate` loop of `get_all_repos` collects. The loop fetches
   * item `i` before it checks `i >= limit`, so a failure right after the
   * first `limit` items is still raised.
   */
  function Limited(listing: Listing, limit: int): (r: Result<seq<Repo>, Raised>)
    ensures r.Success? ==> |r.value| <= |listing.items| && r.value == listing.items[..|r.value|]
    ensures r.Success? ==> |r.value| == if |listing.items| <= limit then |listing.items| else Max0(limit)
    ensures r.Failure? <==> listing.failure.Some? && |listing.items| <= Max0(limit)
    ensures r.Failure? ==> r.error == listing.failure.value
  {
    if |listing.items| > Max0(limit) then Success(listing.items[..Max0(limit)])
    else if listing.failure.Some? then Failure(listing.failure.value)
    else Success(listing.items)
  }

  /**
   * With a limit of 0 or below the loop breaks on the first item, so nothing
   * is collected (and `get_repo_stats` returns `{}`) unless the very first
   * fetch fails.
   */
  lemma {:induction false} NonPositiveLimitListsNothing(listing: Listing, limit: int)
    requires limit <= 0
    ensures Limited(listing, limit).Success? ==> Limited(listing, limit).value == []
    ensures Limited(listing, limit).Failure? <==> listing.items == [] && listing.failure.Some?
  {
  }

  function Max0(n: int): nat { if n < 0 then 0 else n }

  /** `get_all_repos` with its `limit` loop. */
  method GetAllRepos(listing: Listing, name: string, limit: int) returns (r: Result<seq<Repo>, string>)
    ensures r == match Limited(listing, limit)
                 case Success(repos) => Success(repos)
                 case Failure(e) => Failure(ListingFailure(e, name))
  {
    var repoList: seq<Repo> := [];
    var i := 0;
    while true
      invariant 0 <= i <= |listing.items| && i <= Max0(limit)
      invariant repoList == listing.items[..i]
      decreases |listing.items| - i
    {
      if i == |listing.items| {
        if listing.failure.Some? {
          return Failure(ListingFailure(listing.failure.value, name));
        }
        break;
      }
      var repo := listing.items[i];
      if i >= limit {
        break;
      }
      repoList := repoList + [repo];
      i := i + 1;
    }
    assert i == |listing.items| ==> listing.items[..i] == listing.items;
    return Success(repoList);
  }

  /** `get_repo_stats`: the statistics of the repositories `get_all_repos` returns. */
  method GetRepoStats(listing: Listing, name: string, limit: int) returns (r: Result<Option<StatsDict>, string>)
    ensures Limited(listing, limit).Failure? ==> r == Failure(ListingFailure(Limited(listing, limit).error, name))
    ensures Limited(listing, limit).Success? ==> (
      var repos := Limited(listing, limit).value;
      && r.Success?
      && (r.value.None? <==> repos == [])
      && (r.value.Some? ==> fresh(r.value.value) && r.value.value.summary == Stats.Summarize(repos)
                            && r.value.value.repositories == repos))
  {
    var repos :- GetAllRepos(listing, name, limit);
    var stats := Stats.GetRepoStats(repos);
    return Success(stats);
  }
}
