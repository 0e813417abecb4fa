# GitHub Repository Analyzer — a verified model of its core

This project models the deterministic core of the GitHub Repository Analyzer, a
command-line tool that fetches a user's or an organisation's repositories from
GitHub, filters and sorts them, and summarises them. The model is written in
Dafny and covers the following parts:

- **Input validation and limits** (`validation.py`, `utils.py`). Each guard
  either returns a normalised value or fails with an error that names the
  field.
- **Repository services** (`core/services.py` and the older `services.py`).
  These filter, sort, analyse and search the fetched repositories.
- **The REST client** (`api.py`). It has a file cache with a time-to-live
  and an order-independent key, the control-character cleaner, the cache and
  error path of a single page fetch, and the `while True` pagination loop.
- **The PyGithub client** (`core/api.py`). It maps status codes to messages,
  retries with exponential backoff on HTTP 429, slices pages, runs the
  limit-bounded listing loop and computes the repository statistics.
- **The error taxonomy** (`errors/*.py`):
  - the `ErrorContext` record;
  - the exception hierarchy;
  - the handlers;
  - the migration converters.
- **Configuration** (`config/config.py`):
  - the validated `Config` value and its copy-with-override helpers;
  - the lazily created global configuration and `create_config`.

One Dafny module per concern:

| file | module | models |
|---|---|---|
| wrappers.dfy | `Wrappers` | `Optional` values and raised exceptions (`Option`, `Result`) |
| text.dfy | `Text` | the `str` operations the code uses: `isspace`, `strip`, ASCII `lower`/`title`, `in`, `str(int)`, `<=` |
| sequences.dfy | `Sequences` | list comprehensions with a condition, slicing, `sum` |
| sorting.dfy | `Sorting` | `sorted(..., key=..., reverse=...)`: a stable sort, proved sorted, a permutation, stable and unique |
| limits.dfy | `Limits` | `clamp_limit` |
| validation.dfy | `Validation` | every `validate_*` function |
| repository.dfy | `Repositories` | the repository record and the statistics dictionary |
| services.dfy | `Services` | `core/services.py` (and the code shared with `services.py`) |
| legacy_services.dfy | `LegacyServices` | what differs in `services.py` |
| stats.dfy | `Stats` | the aggregation loop of `get_repo_stats`, shared by both clients |
| cleaning.dfy | `Cleaning` | `_clean_repository_data` |
| cache.dfy | `Cache` | `CacheManager` |
| rest_client.dfy | `RestClient` | `GitHubAPI` in `api.py` |
| github_client.dfy | `GitHubClient` | `GitHubAPI` in `core/api.py` |
| error_context.dfy | `ErrorContexts` | `errors/context.py` |
| exceptions.dfy | `Errors` | `errors/exceptions.py` |
| handlers.dfy | `Handlers` | `errors/handlers.py` |
| migration.dfy | `Migration` | `errors/migration.py` |
| configuration.dfy | `Configuration` | `config/config.py` |

## How the source's forms are kept

- **Pure code becomes functions with contracts.** This covers the
  validators, the filters and sorts, the status mappings, message formatting
  and the config copies.
- **Code that changes state becomes classes or methods:**
  - `CacheManager`, `ErrorContext`, the analyzer's exceptions and the
    global-config registry are classes. Their methods modify their fields.
  - The statistics dictionary is a class, because `analyze_repositories`
    overwrites its `"repositories"` entry in place.
  - The cleaning loops, the pagination loop, the retry loop, the listing loop
    and the aggregation loop are methods with loop invariants. Each is proved
    equal to a specification function whose properties are proved as lemmas.
- **Exceptions become `Result` failures.** A `Failure` carries either the
  message of the `ValueError` raised or the error value the handler builds.
- **Calls into the network, PyGithub, the file system and the clock become
  parameters:**
  - `now` is a time in seconds.
  - A response or a per-page source stands for the HTTP call.
  - `callAt(i)` is the outcome of the `i`-th library call.
  - A `Listing` is what PyGithub's lazy list yields.
  - `write` says how writing a cache file went, and a cache file is an
    `Entry` that loads, fails with an error `get` catches, or fails with one
    it does not.
  - `environmentToken` is the value of `GITHUB_TOKEN`.
- **The hierarchy of nine exception classes becomes an `ErrorKind` tag on one
  `AnalyzerError` class.** The subclasses differ only in their default
  message and in how `ValidationError` and `APIError` merge their arguments
  into the context. "Every subclass is an analyzer error" therefore holds by
  construction.

## Notes on behaviour

The model follows the code. In particular:

- **`search_repositories` in `core/services.py`:**
  - It cuts the result with `sorted_repos[:limit]` whenever `limit` is
    non-zero. `Services.Truncate` and `Sequences.Slice` keep Python's
    negative-index slicing.
  - The same `limit` also bounds the listing loop of `get_all_repos`. A limit
    of 0 or below there breaks on the first item, so `get_repo_stats` returns
    `{}` (`GitHubClient.NonPositiveLimitListsNothing`) and the search raises
    the missing-key error of the first finding below. Both `-1` and `0`
    pass validation, so a search with either raises before the cut.
- **`with_cache_disabled`** builds `CacheConfig(enabled=False)`. It therefore
  also puts the cache directory and TTL back to their defaults.
- **`with_custom_cache`** always sets `enabled` to true, even on a
  configuration whose cache was off.
- **Network errors are recognised differently in the two error paths:**
  - `handle_error` and `ErrorHandler.handle_network_exception` recognise them
    by their text (`"timeout"`, `"connection"`).
  - `convert_network_exception` recognises them by their class.
  - `Migration.NetworkConvertersAgree` shows that the two agree on a timeout
    whose text mentions a timeout. It also shows that they disagree on every
    timeout whose text does not, for example one whose text only names an
    `HTTPSConnectionPool`.
- **Status 403 at connection time.** The connection check in
  `core/api.py`'s `__init__` reports every 403 as "forbidden". The fetch
  path separates a rate-limit 403 from the others
  (`GitHubClient.ConnectAgreesWithFetch`).
- **The listing loop of `get_all_repos` in `core/api.py`** takes item `i`
  from the lazy list before it tests `i >= limit`. A failure to fetch the
  item just after the first `limit` is therefore still raised
  (`GitHubClient.Limited`).
- **A failed page fetch in `api.py`** with any status but 401 gives `[]`, and
  that ends the pagination. Only 401 raises.

## Model

| member | source | states |
|---|---|---|
| Limits.ClampLimit | src/github_repo_analyzer/utils.py:6-31 | `None` gives the default and `-1` gives the maximum. Raises exactly for values below -1, with the fixed message. A non-negative value maps to `min(value, maximum)`, so the result never exceeds the maximum or the input. |
| Limits.ValidatedLimitClamps | src/github_repo_analyzer/utils.py:24-31 | `validate_limit` accepts exactly the limits `clamp_limit` does not raise on. |
| Validation.HyphenTests | src/github_repo_analyzer/validation.py:74-86 | The `startswith`/`endswith`/`"--" in` tests agree with the character-level login rules. |
| Validation.LoginProblem | src/github_repo_analyzer/validation.py:60-86 | For a non-empty stripped name, no message exactly when the name is a valid login. Otherwise the message of the first rule broken, in the code's order: more than 39 characters gives the length message; a character outside `[A-Za-z0-9_-]` the characters message; a `-` at either end the hyphen-ends message; `--` the consecutive-hyphens message. |
| Validation.ValidateUsernameOrOrg | src/github_repo_analyzer/validation.py:29-88 | Succeeds iff the stripped name is 1..39 characters of `[A-Za-z0-9_-]` with no leading or trailing `-` and no `--`, and then returns the stripped name. Every failure names the field `username_or_org`. Blank input gives the "cannot be empty" message; any other invalid name gives the message of the first login rule it breaks. |
| Validation.ValidateLimit | src/github_repo_analyzer/validation.py:91-113 | `None` and every value from -1 up pass unchanged. Anything lower fails, tagged with the given field name. |
| Validation.ValidateVisibilityFlags | src/github_repo_analyzer/validation.py:116-136 | Fails iff both flags are set, with field `visibility_flags`. |
| Validation.ValidateLanguage | src/github_repo_analyzer/validation.py:139-173 | Absent or blank input gives no filter. Otherwise the result is the stripped, title-cased name. It fails (field `language`) exactly when the stripped name exceeds 50 characters or has a character outside letters, digits, whitespace and `-+.#/`. |
| Validation.TitleKeepsLanguageChars | src/github_repo_analyzer/validation.py:155-171 | Title-casing keeps the length and the set of allowed characters, so the checks after it judge the stripped input. |
| Validation.ValidateMinStars | src/github_repo_analyzer/validation.py:176-198 | `None` passes. A value is accepted, unchanged, iff it is in 0..1,000,000; otherwise field `min_stars`. |
| Validation.ValidateMinForks | src/github_repo_analyzer/validation.py:201-223 | `None` passes. A value is accepted, unchanged, iff it is in 0..100,000; otherwise field `min_forks`. |
| Validation.ValidateSortField | src/github_repo_analyzer/validation.py:226-247 | The identity on the six sort fields; anything else fails with field `sort_field`. |
| Validation.ValidateOutputFormat | src/github_repo_analyzer/validation.py:250-271 | The identity on `table`, `json` and `summary`; anything else fails with field `output_format`. |
| Validation.ValidateCacheTtl | src/github_repo_analyzer/validation.py:274-295 | Accepts exactly 0..2,592,000 (thirty days), unchanged; otherwise field `cache_ttl`. |
| Validation.ValidateCacheDir | src/github_repo_analyzer/validation.py:298-325 | Returns the stripped path iff it is non-blank and at most 500 characters; otherwise field `cache_dir`. |
| Validation.ValidateGithubToken | src/github_repo_analyzer/validation.py:328-357 | Returns the stripped token iff it has 20..200 characters; otherwise field `github_token`, with the "too short" and "too long" messages. |
| Validation.ValidateAnalyzeInputs | src/github_repo_analyzer/validation.py:360-390 | Succeeds iff all four fields pass, returning their normalised values. A bad name reports the name's own error first. |
| Validation.ValidateSearchInputs | src/github_repo_analyzer/validation.py:393-438 | Both visibility flags fail before any other field is looked at. Otherwise it succeeds iff every field passes. The result holds the stripped name, the limit, the sort field, the title-cased language, the star and fork minimums and both flags, as given. |
| Validation.ValidateConfigInputs | src/github_repo_analyzer/validation.py:441-470 | Succeeds iff the directory and TTL pass and a truthy token passes. The result holds a token exactly when a truthy one was given, and then it is the stripped token. |
| Sorting.SortBy | src/github_repo_analyzer/core/services.py:146-157 | `sorted` with a key, with or without `reverse=True`: a permutation of its input, ordered by the key and stable. |
| Sorting.SortedUnique | src/github_repo_analyzer/core/services.py:146-157 | Two sorted lists that agree on the order inside every key class are equal, so the stable sort has exactly one result. |
| Sorting.SortIdempotent | src/github_repo_analyzer/core/services.py:146-157 | Sorting twice by the same key is sorting once. |
| Services.Matching | src/github_repo_analyzer/core/services.py:106-129 | The reference filter: an order-preserving subsequence that holds exactly the records passing every active condition. |
| Services.ApplyFilters | src/github_repo_analyzer/core/services.py:106-129 | The five conditional comprehensions keep exactly `Matching`: an order-preserving subsequence of the records that pass every active filter. With both visibility flags set the result is empty. |
| Services.StagesAreOneFilter | src/github_repo_analyzer/core/services.py:108-127 | Five successive comprehensions, each applied only when its option is set, keep what one pass with all conditions keeps. |
| Services.BothFlagsKeepNothing | src/github_repo_analyzer/core/services.py:123-127 | `public_only` and `private_only` together keep nothing. |
| Services.SortKey | src/github_repo_analyzer/core/services.py:146-159 | The fields `_sort_repositories` knows are exactly the six that `validate_sort_field` accepts. |
| Services.SortRepositories | src/github_repo_analyzer/core/services.py:131-159 | The result is a permutation of the input. For a known field it is sorted by that field's key and stable. An empty list or an unknown field comes back unchanged. |
| Services.SortOrder | src/github_repo_analyzer/core/services.py:146-157 | Spelled out on records: `name` is ascending by lower-cased name; stars, forks and size are descending; `updated` and `created` are descending as strings. |
| Services.MatchingKeepsSorted | src/github_repo_analyzer/core/services.py:239-244 | Filtering a sorted list keeps it sorted. |
| Services.SearchSortsOnce | src/github_repo_analyzer/core/services.py:229-248 | Re-sorting the filtered, already sorted repositories changes nothing. The search result is the filtered analysis cut to the limit. |
| Services.AnalyzeRepositories | src/github_repo_analyzer/core/services.py:31-82 | Empty statistics come back as `{}`. Otherwise the same dictionary comes back, with only its `"repositories"` entry replaced in place by the sorted list. |
| Services.ValidateInputs | src/github_repo_analyzer/core/services.py:161-187 | Fails iff the name is not a login, the limit is below -1, or both visibility flags are set. The flags get their own message. |
| Services.Truncate | src/github_repo_analyzer/core/services.py:246-248 | A positive limit keeps the first `limit` repositories; a zero limit keeps all of them; a negative limit drops that many from the end, as Python slicing does. |
| Services.SearchRepositoriesAsWritten | src/github_repo_analyzer/core/services.py:189-250 | Invalid inputs fail before anything is touched. An empty analysis raises the missing-key error. Otherwise the analysis is sorted in place and the result is the filtered, sorted list cut to the limit. |
| Services.SearchOfEmptyAnalysisRaises | src/github_repo_analyzer/core/services.py:229-236 | A valid search whose analysis is empty raises: the missing-key error. |
| Services.SearchRepositories | src/github_repo_analyzer/core/services.py:189-250 | As above, except that an empty analysis gives `[]`. |
| LegacyServices.ValidateInputs | src/github_repo_analyzer/services.py:182-207 | Fails iff the name is blank, the limit is below -1, or both flags are set. The checks run in that order, each with its own message. |
| LegacyServices.NewerValidationIsStricter | src/github_repo_analyzer/services.py:182-207 | Whatever the newer `validate_inputs` accepts, the older one accepts too; both reject the two flags together. |
| LegacyServices.SearchRepositories | src/github_repo_analyzer/services.py:57-103 | Empty statistics give `[]`. Otherwise the result is a permutation of the matching records, sorted and stable for a known field, and not cut to the limit. |
| Stats.Bump | src/github_repo_analyzer/core/api.py:331-333 | One `languages[lang] = languages.get(lang, 0) + 1` grows the insertion-ordered dict by at most one entry. |
| Stats.BumpKeys | src/github_repo_analyzer/core/api.py:331-333 | A bump appends a new language at the end and leaves the key order otherwise unchanged. |
| Stats.BumpCounts | src/github_repo_analyzer/core/api.py:331-333 | A bump adds one to the bumped language's count and leaves every other count as it was. |
| Stats.TallyKeys | src/github_repo_analyzer/core/api.py:326-336 | The dict's keys are the truthy languages in first-seen order. |
| Stats.TallyMembers | src/github_repo_analyzer/core/api.py:331-333 | A language is a key iff it is non-empty and some repository has it. Keys never repeat. |
| Stats.TallyCounts | src/github_repo_analyzer/core/api.py:331-333 | Each entry counts exactly the repositories with that language. No key is empty, so falsy languages are not counted. |
| Stats.TopLanguages | src/github_repo_analyzer/core/api.py:339 | At most ten entries: the first entries of the stable descending sort by count. |
| Stats.TopLanguagesDescending | src/github_repo_analyzer/core/api.py:339 | Counts in `top_languages` never increase. |
| Stats.TopLanguagesAreTop | src/github_repo_analyzer/core/api.py:339 | No dict entry left out outranks one kept. With fewer than ten languages, all are kept. |
| Stats.TopLanguagesFromTally | src/github_repo_analyzer/core/api.py:339 | Every top language is an entry of the dict. |
| Stats.TopLanguagesTies | src/github_repo_analyzer/core/api.py:339 | Among equal counts, the kept languages are the first-seen ones, in first-seen order. |
| Stats.PrivateCount | src/github_repo_analyzer/core/api.py:321-324 | `private = total - public` is the number of private repositories, and public plus private is the total. |
| Stats.TotalsIgnoreOrder | src/github_repo_analyzer/core/api.py:326-336 | The repository, star, fork and size totals do not depend on the order of the repositories. |
| Stats.Aggregate | src/github_repo_analyzer/core/api.py:326-336 | The loop leaves the `languages` dict equal to the tally and the three totals equal to plain sums. |
| Stats.GetRepoStats | src/github_repo_analyzer/core/api.py:316-351 | `{}` exactly for no repositories. Otherwise a new dictionary holding the summary of the repositories and the repositories themselves. The same computation is at src/github_repo_analyzer/api.py:346-379. |
| Cleaning.ReplaceControl | src/github_repo_analyzer/api.py:30 | Every character in `\x00-\x1f` or `\x7f-\x9f` becomes a space; the length is kept. |
| Cleaning.Collapse | src/github_repo_analyzer/api.py:32 | `re.sub(r"\s+", " ", ...)`: no two whitespace characters are adjacent, every whitespace character left is a space, every other character comes from the input, and the result is empty iff the input is. |
| Cleaning.CollapseIsSqueeze | src/github_repo_analyzer/api.py:32 | Collapsing equals the left-to-right reading of the substitution: each maximal whitespace run becomes exactly one space and every other character stays in place. |
| Cleaning.CollapseKeepsText | src/github_repo_analyzer/api.py:32 | The non-whitespace characters of the result are those of the input, in the same order. |
| Cleaning.CleanStringTidy | src/github_repo_analyzer/api.py:28-32 | A cleaned string has no control characters, no whitespace but single spaces, and no whitespace at either end. |
| Cleaning.CollapseSpaced | src/github_repo_analyzer/api.py:32 | Collapsing a string that is already single-spaced changes nothing. |
| Cleaning.TidyIsClean | src/github_repo_analyzer/api.py:28-32 | Cleaning a tidy string changes nothing. |
| Cleaning.CleanStringIdempotent | src/github_repo_analyzer/api.py:28-32 | Cleaning a string twice is cleaning it once. |
| Cleaning.CleanRecordFacts | src/github_repo_analyzer/api.py:25-37 | A cleaned record has the same keys and unchanged non-string values. Every string in it is tidy, and re-cleaning it is a no-op. |
| Cleaning.CleanAll | src/github_repo_analyzer/api.py:18-39 | The cleaned list has the same length, and its `i`-th dict is the `i`-th input dict cleaned. |
| Cleaning.CleanAllIdempotent | src/github_repo_analyzer/api.py:18-39 | Cleaning cached data that was cleaned before it was cached changes nothing. The cache read at lines 218-219 relies on this. |
| Cleaning.CleanRepositoryData | src/github_repo_analyzer/api.py:18-39 | The nested loops build exactly `CleanAll` of the input. |
| Cache.CacheKey | src/github_repo_analyzer/api.py:60-65 | The key is the URL, a `?`, then the parameters sorted by name. |
| Cache.SortedParamsUnique | src/github_repo_analyzer/api.py:63 | Two name-sorted lists of the same dictionary entries are equal. |
| Cache.CacheKeyOrderFree | src/github_repo_analyzer/api.py:60-65 | Parameter dictionaries with the same entries give the same key, whatever their insertion order. |
| Cache.CacheKeyOfSorted | src/github_repo_analyzer/api.py:60-65 | The key is the URL, `?`, then the `name=value` pairs joined by `&` in name order, for any name-sorted arrangement of the entries. |
| Cache.Lookup | src/github_repo_analyzer/api.py:67-94 | What `get` should answer: a hit iff the file exists, loads, and is at most `ttl` seconds old (an age equal to the TTL is still a hit); a hit returns the stored data. |
| Cache.AfterLookup | src/github_repo_analyzer/api.py:75-94 | After that answer, a miss deletes the file it tried (expired, corrupt or unreadable); a hit deletes nothing; no other file is touched. |
| Cache.Load | src/github_repo_analyzer/api.py:67-94 | `get` as written: it raises exactly on a file whose load error is not caught (empty file, non-dict payload); it hits exactly when `Lookup` hits, with the same data. |
| Cache.AfterLoad | src/github_repo_analyzer/api.py:75-94 | As written, a file that raises is left in place; otherwise the files change as `AfterLookup` says. |
| Cache.Stored | src/github_repo_analyzer/api.py:96-120 | The files after `set`: a write stores the data under the key, stamped `now` with the URL and parameters; a failed `open` changes nothing; a failed dump leaves an empty, unreadable file under the key. No other file changes. |
| Cache.FailedDumpKeepsRaising | src/github_repo_analyzer/api.py:78-120 | As written, after a failed dump every later `get` of that request raises, and the file is never removed. |
| Cache.FailedDumpIsAMiss | src/github_repo_analyzer/api.py:78-94 | Read as intended, the same file is a miss and is deleted. |
| Cache.StoreThenLookup | src/github_repo_analyzer/api.py:96-117 | After `set(u, p, d)` at time `t`, `get(u, p)` at any time within the TTL returns `d`. |
| Cache.StoreThenLookupReordered | src/github_repo_analyzer/api.py:60-117 | The same holds when `get` is called with the parameters in another insertion order. |
| Cache.MissIsFinal | src/github_repo_analyzer/api.py:83-94 | After a miss the file is gone, so every later lookup misses too. |
| Cache.ExpiryIsMonotone | src/github_repo_analyzer/api.py:83-86 | A hit at a later time is a hit at every earlier time; an expired file stays expired. |
| Cache.CacheManager.constructor | src/github_repo_analyzer/api.py:45-58 | Caching is enabled exactly when a directory is given; existing files are kept. |
| Cache.CacheManager.GetAsWritten | src/github_repo_analyzer/api.py:67-94 | `get` as written. Disabled: a miss, nothing changes. Enabled: returns `Load` and leaves `AfterLoad` of the files. |
| Cache.CacheManager.Get | src/github_repo_analyzer/api.py:67-94 | The corrected `get`. Disabled: `None`, nothing changes. Enabled: returns `Lookup` and leaves `AfterLookup` of the files, so every load failure is a miss. |
| Cache.CacheManager.Set | src/github_repo_analyzer/api.py:96-120 | Enabled: the files become `Stored` for the write's outcome; a save error is not raised. Disabled: nothing changes. |
| Cache.CacheManager.Clear | src/github_repo_analyzer/api.py:122-127 | Enabled: no file is left. Disabled: nothing changes. |
| RestClient.ResolveToken | src/github_repo_analyzer/api.py:174-179 | `token or GITHUB_TOKEN`; fails with the token-required message iff both are falsy. |
| RestClient.ReposUrl | src/github_repo_analyzer/api.py:206 | The repositories URL is `https://api.github.com`, then `/users/` (or `/orgs/` for an organisation), the name, and `/repos`. Line 257 builds the organisation URL. |
| RestClient.PageParams | src/github_repo_analyzer/api.py:207-212 | A dictionary with no repeated name: `per_page` is `min(per_page, 100)`, then the requested page, `sort=updated` and `direction=desc`. Lines 258-263 build the same query. |
| RestClient.FromNetwork | src/github_repo_analyzer/api.py:222-242 | Raises the invalid-token `ValueError` iff the response failed with 401. Any other failure gives `[]`; a success gives the cleaned body. |
| RestClient.CachedPageMatchesNetwork | src/github_repo_analyzer/api.py:215-234 | A page cached from a successful response and read back within the TTL is a hit, and it is the page the network gave. |
| RestClient.GitHubApi.constructor | src/github_repo_analyzer/api.py:160-191 | The client holds the resolved token and a new cache manager with the given directory and TTL. |
| RestClient.GitHubApi.FetchRepos | src/github_repo_analyzer/api.py:193-242 | A cache file that raises on load makes the fetch raise, with the cache unchanged. A fresh hit is re-cleaned and returned. Otherwise the network's answer is cleaned, stored on success as `set` says, and returned, or the 401 raises. Lines 244-295 do the same for organisations. |
| RestClient.Connect | src/github_repo_analyzer/api.py:160-191 | Fails iff the token cannot be resolved; otherwise a new client with the resolved token. |
| RestClient.FirstEnd | src/github_repo_analyzer/api.py:319-326 | The first page, from the given one on, that is an error or shorter than 100 records. |
| RestClient.PaginateBoundFree | src/github_repo_analyzer/api.py:309-330 | The pagination result does not depend on which ending page is used to bound it. |
| RestClient.PaginateIsConcatenation | src/github_repo_analyzer/api.py:309-330 | Pages 1..k laid end to end, where k is the first short or empty page. An error on some page before k is raised instead. |
| RestClient.GetAllRepos | src/github_repo_analyzer/api.py:297-330 | The `while True` loop returns exactly the pagination specification from page 1. |
| GitHubClient.HandleGithubException | src/github_repo_analyzer/core/api.py:77-112 | The message raised: 401 invalid token; 403 rate limit if the text mentions one, else forbidden; 404 not found; 422 invalid request; 429 rate limit; anything else names the operation. |
| GitHubClient.RateLimitMessageIff | src/github_repo_analyzer/core/api.py:88-110 | The rate-limit message is raised iff the status is 429, or it is 403 with "rate limit" in the text. |
| GitHubClient.ConnectFailure | src/github_repo_analyzer/core/api.py:49-75 | The message of the connection check: timeout with the seconds, connection failure, 401 invalid token, any 403 forbidden, `"GitHub API error: "` and the text for every other status, and unexpected errors with their text. |
| GitHubClient.ConnectAgreesWithFetch | src/github_repo_analyzer/core/api.py:62-112 | 401 reads the same at connection time and fetch time. A 403 agrees unless its text mentions a rate limit. |
| GitHubClient.FetchFailure | src/github_repo_analyzer/core/api.py:174-193 | A page fetch reports a library error through the status mapping with the user or organisation operation. A timeout names the user, or the organisation with the word "organization". A connection error and an unexpected error have fixed prefixes. Lines 226-250 do the same for organisations. |
| GitHubClient.ListingFailure | src/github_repo_analyzer/core/api.py:282-301 | The same mapping for `get_all_repos`, with its own operation and timeout wording. |
| GitHubClient.RetryOnRateLimit | src/github_repo_analyzer/core/api.py:114-141 | At most three calls. Every call but the last was rate limited and was followed by a sleep of 2^i seconds (1, then 2). The last call's outcome is passed on, and it is rate limited only if it is the third. |
| GitHubClient.PageOf | src/github_repo_analyzer/core/api.py:168-171 | Page `p` is `all[(p-1)*per_page : p*per_page]`, at most `per_page` long. |
| GitHubClient.PagesTile | src/github_repo_analyzer/core/api.py:168-171 | Pages 1..k laid end to end are the first `k*per_page` repositories. |
| GitHubClient.GetRepos | src/github_repo_analyzer/core/api.py:143-250 | A blank name fails before any call. Otherwise every call before the last was rate limited and followed by a `2**i`-second delay; the last call is not rate limited unless it was the third. The result is the requested page of the last call's listing, or its mapped failure. |
| GitHubClient.Limited | src/github_repo_analyzer/core/api.py:274-279 | The first `min(limit, n)` repositories, in order. A listing failure is raised iff it comes at or before item `limit`, and it is the listing's own error. |
| GitHubClient.NonPositiveLimitListsNothing | src/github_repo_analyzer/core/api.py:274-279 | With a limit of 0 or less nothing is collected, so `get_repo_stats` returns `{}`; only a failure of the very first fetch is raised instead. |
| GitHubClient.GetAllRepos | src/github_repo_analyzer/core/api.py:252-301 | The `enumerate` loop returns exactly `Limited`, with the failure mapped to its message. |
| GitHubClient.GetRepoStats | src/github_repo_analyzer/core/api.py:303-351 | The statistics of the repositories `get_all_repos` returns: `{}` iff there are none; failures pass through. |
| ErrorContexts.Get | src/github_repo_analyzer/errors/context.py:45-54 | A key is found iff some entry has it. |
| ErrorContexts.GetFirstMatch | src/github_repo_analyzer/errors/context.py:45-54 | The value found is that of the first entry carrying the key. |
| ErrorContexts.Put | src/github_repo_analyzer/errors/context.py:52-54 | Sets the key (in place if present, at the end if new) and leaves every other key unchanged. |
| ErrorContexts.ContextDict | src/github_repo_analyzer/errors/context.py:26-43 | `operation` and `field` appear iff truthy, with their text; `value`, `status_code` and `retry_after` iff not `None`, the value as it is and the two numbers as decimal strings; `additional_info` iff non-empty, with its entries. No other key appears. |
| ErrorContexts.ContextDictEmpty | src/github_repo_analyzer/errors/context.py:26-43 | An empty context logs as `{}`. A context holding only an operation and a status code logs exactly those keys. |
| ErrorContexts.ErrorContext.constructor | src/github_repo_analyzer/errors/context.py:12-24 | The six fields are stored as given. |
| ErrorContexts.ErrorContext.HasRetryInfo | src/github_repo_analyzer/errors/context.py:56-58 | Holds iff `retry_after` is set, that is, iff `to_dict` has a `retry_after` entry. |
| ErrorContexts.ErrorContext.GetRetryDelay | src/github_repo_analyzer/errors/context.py:60-62 | Some delay iff there is retry information, and it is the number `to_dict` logs. |
| ErrorContexts.ErrorContext.AddInfo | src/github_repo_analyzer/errors/context.py:45-54 | Creates the extra-info dict if absent, sets the key, keeps the other keys and every other field. |
| ErrorContexts.Extras | src/github_repo_analyzer/errors/context.py:86 | `kwargs if kwargs else None`, as also written at lines 111 and 125. |
| ErrorContexts.CreateApiContext | src/github_repo_analyzer/errors/context.py:65-87 | Sets operation, status code, retry-after and the extras; field and value stay unset. |
| ErrorContexts.CreateValidationContext | src/github_repo_analyzer/errors/context.py:90-112 | Sets field, value, operation and the extras; status code and retry-after stay unset. |
| ErrorContexts.CreateNetworkContext | src/github_repo_analyzer/errors/context.py:115-125 | Sets only the operation and the extras. |
| Errors.DefaultMessage | src/github_repo_analyzer/errors/exceptions.py:44-150 | Each subclass has a non-empty default message. |
| Errors.DefaultMessagesDistinct | src/github_repo_analyzer/errors/exceptions.py:44-150 | No two subclasses share a default message. |
| Errors.AnalyzerError.constructor | src/github_repo_analyzer/errors/exceptions.py:19-35 | Message and cause are stored as given; a missing context becomes a new empty one. |
| Errors.AnalyzerError.ToString | src/github_repo_analyzer/errors/exceptions.py:37-41 | `"<operation>: <message>"` when the operation is truthy, else the message; the message is always its suffix. |
| Errors.NewValidationError | src/github_repo_analyzer/errors/exceptions.py:92-109 | A given context is updated in place: the field only if one is given, the value only if one is given. Without a context a new one holds field and value. |
| Errors.NewApiError | src/github_repo_analyzer/errors/exceptions.py:124-138 | A given context gets the status code only if one is given, and is otherwise untouched. Without a context a new one holds the status code. |
| Handlers.OrDefault | src/github_repo_analyzer/errors/handlers.py:183-185 | `s or default`, as also written at line 156. |
| Handlers.ClassifyGithub | src/github_repo_analyzer/errors/handlers.py:63-109 | Kinds: 401 Authentication; 403 RateLimit if the text mentions a rate limit, else Authentication; 404 NotFound; 422 Validation; 429 RateLimit; else APIError. Each is iff. The message equals the client's for every integer status. |
| Handlers.Build | src/github_repo_analyzer/errors/handlers.py:63-109 | A new error of the given kind and message around the given context, whose fields are left alone. |
| Handlers.HandleGithubException | src/github_repo_analyzer/errors/handlers.py:42-109 | An explicit status code wins over the exception's; with neither, the context has no status; the context holds the operation and that status; the cause is the original exception. |
| Handlers.NetworkMessageByText | src/github_repo_analyzer/errors/handlers.py:125-136 | "timeout" in the text is checked before "connection", then the generic network message. |
| Handlers.HandleNetworkException | src/github_repo_analyzer/errors/handlers.py:111-138 | A new NetworkError with that message, the operation in a new context, and the cause. |
| Handlers.HandleValidationException | src/github_repo_analyzer/errors/handlers.py:140-157 | A new ValidationError with `str(e)`, the field defaulting to `"unknown"`, the operation, and the cause. |
| Handlers.Dispatch | src/github_repo_analyzer/errors/handlers.py:180-193 | A `status` attribute goes to the GitHub mapping. Otherwise timeout or connection text gives Network with the text-chosen message; then a `ValueError` gives Validation with `str(e)`; the rest gives the base error with `"Unexpected error: "` and the text. Never Configuration or Cache. |
| Handlers.HandleError | src/github_repo_analyzer/errors/handlers.py:160-193 | The identity on the analyzer's own errors; any other exception is converted as `Dispatch` says. The context of the new error: the operation defaults to `"unknown operation"` for a GitHub error and to `"network operation"` for a network error; a `ValueError` gets field `"unknown"` and the given operation; a base error gets only the given operation. |
| Handlers.FormatErrorMessage | src/github_repo_analyzer/errors/handlers.py:196-224 | Each kind gets its label before the message: Authentication, Rate Limit, Not Found, Network, Configuration, API and Cache Error; `"Validation Error (<field>): "` when a validation error has a field and `"Validation Error: "` otherwise; `"Error: "` for the base kind. |
| Handlers.TipFor | src/github_repo_analyzer/errors/handlers.py:227-258 | The fixed tip of each kind (the authentication tip names `GITHUB_TOKEN` and `--token`). A validation error with a field names that field, and one without gets the input tip. The base kind has no tip. |
| Handlers.GetErrorTip | src/github_repo_analyzer/errors/handlers.py:227-258 | The tip of the error's kind and context field, as `TipFor` gives it; none exactly for the base kind. |
| Handlers.ErrorHandlerWrapper | src/github_repo_analyzer/errors/handlers.py:288-314 | A returned value passes through. A raised exception is converted, then raised if `reraise` and returned otherwise. |
| Migration.ConvertGithubException | src/github_repo_analyzer/errors/migration.py:29-90 | The same status-to-kind-and-message mapping as the handler; the context holds the exception's status and the operation. |
| Migration.NetworkMessageByClass | src/github_repo_analyzer/errors/migration.py:108-119 | The Timeout class is checked before ConnectionError, then the generic message. |
| Migration.ConvertNetworkException | src/github_repo_analyzer/errors/migration.py:93-121 | Always a NetworkError with that message, the operation, and the cause. |
| Migration.NetworkConvertersAgree | src/github_repo_analyzer/errors/migration.py:108-119 | The class-based and text-based network messages agree on a timeout whose text mentions one, and on an exception of neither class whose text mentions neither. They disagree on every timeout whose text does not mention one, which the handler reports as a connection error or a plain network error. |
| Migration.ConvertValueError | src/github_repo_analyzer/errors/migration.py:124-138 | A ValidationError with `str(e)`, the field defaulting to `"unknown"`, the operation, and the cause. |
| Migration.ConvertConfigError | src/github_repo_analyzer/errors/migration.py:141-154 | A ConfigurationError with field `"configuration"` and the operation, which renders as `"Configuration Error: <text>"`. |
| Migration.CreateLegacyValidationError | src/github_repo_analyzer/errors/migration.py:157-173 | Keeps the message; the field defaults to `"unknown"`; there is no cause. It renders and tips with that field. |
| Configuration.Validate | src/github_repo_analyzer/config/config.py:78-100 | Succeeds iff the token is truthy, TTL ≥ 0, timeout > 0, default limit > 0 and max limit > default limit. Otherwise the message of the first failing check, in that order. |
| Configuration.DefaultConfig | src/github_repo_analyzer/config/config.py:13-76 | Valid iff the environment token is truthy, otherwise the token-required message. The defaults: cache `.cache`, 3600 s, enabled; API 30 s timeout, 3 retries, 1.0 s delay, buffer 10; limits 100 and 10000 (those of `clamp_limit`) with unlimited `-1`; the output and logging defaults. |
| Configuration.WithCacheDisabled | src/github_repo_analyzer/config/config.py:102-112 | Caching off, with directory and TTL back at their defaults; nothing else changes. |
| Configuration.WithCustomCache | src/github_repo_analyzer/config/config.py:114-124 | The given directory and TTL with caching on, nothing else changed; fails iff the TTL is negative. |
| Configuration.WithCustomToken | src/github_repo_analyzer/config/config.py:126-136 | Only the token changes; fails iff it is empty. |
| Configuration.CustomCacheOverridesDisabled | src/github_repo_analyzer/config/config.py:102-124 | Disabling the cache and then setting a custom one equals setting the custom one directly. |
| Configuration.CacheOverride | src/github_repo_analyzer/config/config.py:186-193 | A falsy directory and a missing TTL fall back to the global values; `enabled` is `not no_cache`. |
| Configuration.CustomizeAsWritten | src/github_repo_analyzer/config/config.py:155-205 | The token falls back to the global one. The cache is replaced only when a directory, TTL or `no_cache` is given. A timeout replaces only the API timeout. Only the merged configuration before these overrides is validated. |
| Configuration.CustomizeSkipsValidation | src/github_repo_analyzer/config/config.py:176-205 | From a valid global configuration, a TTL of -1 or a timeout of 0 yields a configuration that `_validate` rejects. |
| Configuration.Customize | src/github_repo_analyzer/config/config.py:155-205 | The corrected merge: every result is valid, and it agrees with the code as written whenever that result is valid. |
| Configuration.ConfigRegistry.GetConfig | src/github_repo_analyzer/config/config.py:143-152 | Created on first use and returned unchanged afterwards; a failed creation leaves no global behind. |
| Configuration.ConfigRegistry.CreateConfigAsWritten | src/github_repo_analyzer/config/config.py:155-205 | `create_config` over the global configuration, as written. Without a global one, the base is the default configuration, which becomes the global one; if that cannot be built, the token-required error is raised and no global is kept. An existing global is left as it is. |
| Configuration.ConfigRegistry.CreateConfig | src/github_repo_analyzer/config/config.py:155-205 | The same base and global, with the final configuration validated. |

## Left out

- HTTP, PyGithub and `response.json()` are left out. A response, a per-page source, a per-call outcome or a lazy listing is a parameter instead.
- The live connection check in both `__init__` methods is left out. Only its failure messages are modelled (`GitHubClient.ConnectFailure`).
- The cache's storage is left out: `hashlib.md5`, `pickle`, `Path`, `mkdir`, `glob` and `unlink`. The directory is a map keyed by the unhashed key string. A file whose load error `get` catches is a `Corrupt` entry, and one whose error escapes (`EOFError`, `TypeError`) is an `Unreadable` entry.
- Cache.CacheManager.Set: a dump that fails after part of the pickle reached the disk is modelled as an empty file (`Unreadable`); a truncated pickle whose load raises the caught `UnpicklingError` would be `Corrupt` instead. A `PicklingError` from unpicklable data is not modelled, since the data are decoded JSON.
- RestClient.ReposUrl: the URL is built by concatenation, not by `urljoin`. The two agree only when the name holds no `/`, `?`, `#` or `.`/`..` segment, which every name `Validation.ValidateUsernameOrOrg` accepts satisfies. `api.py` passes the name unvalidated, so for other names the model addresses a different URL, and so a different cache key, than the source.
- RestClient.GitHubApi.FetchRepos: the escaping load error is one `CacheLoadError` naming the key; which exception class escapes is not kept.
- `Cache.CacheKey` is the unhashed string. MD5 collisions are not modelled.
- `time.time()` and `time.sleep()` are left out. The clock is a parameter, and the backoff delays are returned instead of slept.
- `RestClient.GetAllRepos` needs a page known to end the walk (the ghost `last`) to terminate. A source that never yields a short page is not modelled.
- Floating point is left out. `round(total_size / 1024, 2)` is kept as the integer kilobyte sum (`Summary.totalSize`), and `retry_delay_seconds` is a `real`.
- Building `Repository` objects from raw dicts (`Repository(**repo)`, `from_pygithub`) is left out. The REST client returns cleaned raw records, and the services and statistics work on the record's fields.
- `api.py`'s `get_repo_stats` is modelled by the same `Stats.GetRepoStats` as `core/api.py`'s, because the two bodies are the same apart from the source of the list.
- Record dates are plain strings. The `or ""` fallback for a missing date is the empty string.
- Unicode is not modelled beyond ASCII `lower`/`title` and Python's `isspace` set.
- `re.sub` over the cleaned strings is modelled for strings only. Nested lists and dicts are left unchanged, as the code leaves them.
- Logging (`log_error_with_context`, every `logger` call, `log_performance`) and timing are left out.
- `load_dotenv` and `os.getenv` are left out. The environment token is a parameter.
- Python's `ValueError` and the analyzer's `ValidationError` are not kept apart as classes. A failure carries its message, or the error value with its field.
- Errors.DefaultMessage: it states only that each default message is non-empty and that they are distinct. The texts themselves are constants in its body.
- Services.SearchRepositoriesAsWritten: the statistics are a parameter, so the search is not tied to the `limit` the listing loop uses. `GitHubClient.NonPositiveLimitListsNothing` states what that loop yields for a limit of 0 or below.
- The wiring of `services.py` to `api.py` is not modelled: it passes a `limit` that `api.py`'s `get_repo_stats` does not accept. Each service works on an abstract statistics result.
- CLI, formatters and the command modules are not part of this model.

## Findings

| source | as written | input that shows it | evidently intended | confidence | as-written member | corrected member |
|---|---|---|---|---|---|---|
| src/github_repo_analyzer/core/services.py:229-236 | `search_repositories` reads `stats["repositories"]` from the result of `analyze_repositories`, which is `{}` when there are no statistics | a valid name whose statistics come back empty: `get_repo_stats` returns `{}` for no repositories, and always for a limit of 0 | an empty result, as the older `services.py:90-91` returns | high, not executed | Services.SearchOfEmptyAnalysisRaises | Services.SearchRepositories |
| src/github_repo_analyzer/config/config.py:176-205 | `create_config` validates the merged configuration and only then assigns the cache and API overrides, so `_validate` never sees them | `create_config(cache_ttl=-1)` or `create_config(timeout=0)` with a valid global configuration | every `Config` satisfies `_validate`, as `__post_init__` promises | medium, not executed | Configuration.CustomizeSkipsValidation | Configuration.Customize |
| src/github_repo_analyzer/api.py:78-120 | `get` catches only `PickleError`, `KeyError` and `OSError`, so an empty cache file (`EOFError`) raises out of `get_user_repos`; a `set` whose dump fails has already emptied the file with `open(..., "wb")` | a `set` whose `pickle.dump` hits a full disk, then any `get` of the same request | an unreadable file is a miss and is deleted, as a corrupt one is | medium, not executed | Cache.CacheManager.GetAsWritten | Cache.CacheManager.Get |
