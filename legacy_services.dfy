/**
 * services.py, the older `RepositoryService`. Its `_apply_filters`,
 * `_sort_repositories` and `analyze_repositories` are the same code as in
 * core/services.py and are taken from `Services`; what differs is its own
 * `validate_inputs` and a `search_repositories` that neither validates nor
 * truncates.
 */
module LegacyServices {
  import opened Wrappers
  import opened Text
  import opened Sorting
  import opened Repositories
  import Validation
  import Services

  /** `validate_inputs`: plain `ValueError`s for a blank name, a limit below -1, or both flags. */
  function ValidateInputs(name: string, limit: Option<int>, publicOnly: bool, privateOnly: bool)
    : (r: Result<(), string>)
    ensures r.Failure? <==> AllSpace(name) || (limit.Some? && limit.value < -1) || (publicOnly && privateOnly)
    ensures AllSpace(name) ==> r == Failure("Username or organization name cannot be empty")
    ensures !AllSpace(name) && limit.Some? && limit.value < -1 ==>
      r == Failure("Limit must be -1 (unlimited) or non-negative")
  {
    StripEmpty(name);
    if name == [] || Strip(name) == [] then Failure("Username or organization name cannot be empty")
    else if limit.Some? && limit.value < -1 then Failure("Limit must be -1 (unlimited) or non-negative")
    else if publicOnly && privateOnly then Failure("Cannot specify both --public-only and --private-only")
    else Success(())
  }

  /**
   * The newer service accepts fewer inputs: whatever it lets through, the
   * older one does too, and both reject the same flag combination.
   */
  lemma {:induction false} NewerValidationIsStricter(name: string, limit: Option<int>, publicOnly: bool, privateOnly: bool)
    ensures Services.ValidateInputs(name, limit, publicOnly, privateOnly).Success?
            ==> ValidateInputs(name, limit, publicOnly, privateOnly).Success?
    ensures publicOnly && privateOnly ==>
            Services.ValidateInputs(name, limit, publicOnly, privateOnly).Failure?
            && ValidateInputs(name, limit, publicOnly, privateOnly).Failure?
  {
    StripEmpty(name);
  }

  /**
   * `search_repositories`: `[]` for empty statistics; otherwise every record
   * that passes the filters, sorted, with no cut to the limit (the limit only
   * goes to the statistics provider).
   */
  function SearchRepositories(stats: Option<StatsDict>, language: Option<string>, minStars: Option<int>,
                              minForks: Option<int>, publicOnly: bool, privateOnly: bool, sortField: string)
    : (r: seq<Repo>)
    reads Frame(stats)
    ensures stats.None? ==> r == []
    ensures stats.Some? ==>
      var matching := Services.Matching(stats.value.repositories, language, minStars, minForks, publicOnly, privateOnly);
      && |r| == |matching|
      && multiset(r) == multiset(matching)
      && (Services.SortKey(sortField).Some? ==>
            SortedBy(r, Services.SortKey(sortField).value) && Stable(r, matching, Services.SortKey(sortField).value))
      && (Services.SortKey(sortField).None? ==> r == matching)
  {
    if stats.None? then []
    else
      var repos := stats.value.repositories;
      var filtered := Services.ApplyFilters(repos, language, minStars, minForks, publicOnly, privateOnly);
      Services.SortRepositories(filtered, sortField)
  }
}
