/**
 * core/services.py: `RepositoryService` over an abstract statistics provider.
 * The filter and sort steps are shared with the older services.py, whose
 * `_apply_filters`, `_sort_repositories` and `analyze_repositories` are the
 * same code.
 */
module Services {
  import opened Wrappers
  import opened Text
  import opened Sequences
  import opened Sorting
  import opened Validation
  import opened Repositories

  // ---------------------------------------------------------------- filters

  /** The language condition; an absent or empty option lets everything through. */
  predicate LanguageMatches(r: Repo, language: Option<string>) {
    !Truthy(language) || (Truthy(r.language) && Lower(r.language.value) == Lower(language.value))
  }

  predicate StarsAtLeast(r: Repo, minStars: Option<int>) {
    minStars.None? || r.stargazersCount >= minStars.value
  }

  predicate ForksAtLeast(r: Repo, minForks: Option<int>) {
    minForks.None? || r.forksCount >= minForks.value
  }

  predicate VisibilityMatches(r: Repo, publicOnly: bool, privateOnly: bool) {
    (!publicOnly || !r.isPrivate) && (!privateOnly || r.isPrivate)
  }

  /** Every active filter at once. */
  predicate MatchesAll(r: Repo, language: Option<string>, minStars: Option<int>, minForks: Option<int>,
                       publicOnly: bool, privateOnly: bool) {
    LanguageMatches(r, language) && StarsAtLeast(r, minStars) && ForksAtLeast(r, minForks)
    && VisibilityMatches(r, publicOnly, privateOnly)
  }

  /** One conditional comprehension: applied only when its option is set. */
  function Stage(repos: seq<Repo>, active: bool, keep: Repo -> bool): seq<Repo> {
    if active then Filter(repos, keep) else repos
  }

  /**
   * The records that pass every active filter, in input order: a reference
   * definition stated record by record.
   */
  function Matching(repos: seq<Repo>, language: Option<string>, minStars: Option<int>,
                    minForks: Option<int>, publicOnly: bool, privateOnly: bool): (r: seq<Repo>)
    ensures IsSubsequence(r, repos)
    ensures forall x :: x in r <==> x in repos && MatchesAll(x, language, minStars, minForks, publicOnly, privateOnly)
  {
    if repos == [] then []
    else
      var rest := Matching(repos[1..], language, minStars, minForks, publicOnly, privateOnly);
      assert repos == [repos[0]] + repos[1..];
      if MatchesAll(repos[0], language, minStars, minForks, publicOnly, privateOnly) then
        assert ([repos[0]] + rest)[1..] == rest;
        [repos[0]] + rest
      else rest
  }

  /**
   * `_apply_filters`: five successive comprehensions, each applied only when
   * its option is set. The result is the subsequence of the records that pass
   * every active filter, and nothing survives both visibility flags.
   */
  function ApplyFilters(repos: seq<Repo>, language: Option<string>, minStars: Option<int>,
                        minForks: Option<int>, publicOnly: bool, privateOnly: bool): (r: seq<Repo>)
    ensures r == Matching(repos, language, minStars, minForks, publicOnly, privateOnly)
    ensures publicOnly && privateOnly ==> r == []
  {
    var k1 := (x: Repo) => LanguageMatches(x, language);
    var k2 := (x: Repo) => StarsAtLeast(x, minStars);
    var k3 := (x: Repo) => ForksAtLeast(x, minForks);
    var k4 := (x: Repo) => !x.isPrivate;
    var k5 := (x: Repo) => x.isPrivate;
    var byLanguage := Stage(repos, Truthy(language), k1);
    var byStars := Stage(byLanguage, minStars.Some?, k2);
    var byForks := Stage(byStars, minForks.Some?, k3);
    var byPublic := Stage(byForks, publicOnly, k4);
    var byPrivate := Stage(byPublic, privateOnly, k5);
    StagesAreOneFilter(repos, language, minStars, minForks, publicOnly, privateOnly, k1, k2, k3, k4, k5);
    BothFlagsKeepNothing(repos, language, minStars, minForks, publicOnly, privateOnly);
    byPrivate
  }

  lemma {:induction false} BothFlagsKeepNothing(repos: seq<Repo>, language: Option<string>, minStars: Option<int>,
                             minForks: Option<int>, publicOnly: bool, privateOnly: bool)
    ensures publicOnly && privateOnly ==> Matching(repos, language, minStars, minForks, publicOnly, privateOnly) == []
  {
    if publicOnly && privateOnly && repos != [] {
      BothFlagsKeepNothing(repos[1..], language, minStars, minForks, publicOnly, privateOnly);
    }
  }

  /** A stage is a comprehension whose condition holds everywhere when the stage is off. */
  lemma {:induction false} StageIsFilter(repos: seq<Repo>, active: bool, keep: Repo -> bool, cond: Repo -> bool)
    requires forall x :: cond(x) == (!active || keep(x))
    ensures Stage(repos, active, keep) == Filter(repos, cond)
  {
    if !active {
      FilterAll(repos, cond);
    } else {
      FilterExt(repos, keep, cond);
    }
  }

  lemma {:induction false} FilterAll(repos: seq<Repo>, cond: Repo -> bool)
    requires forall x :: cond(x)
    ensures Filter(repos, cond) == repos
  {
    if repos != [] {
      FilterAll(repos[1..], cond);
      assert repos == [repos[0]] + repos[1..];
    }
  }

  lemma {:induction false} FilterIsMatching(repos: seq<Repo>, language: Option<string>, minStars: Option<int>,
                                            minForks: Option<int>, publicOnly: bool, privateOnly: bool,
                                            all: Repo -> bool)
    requires forall x :: all(x) == MatchesAll(x, language, minStars, minForks, publicOnly, privateOnly)
    ensures Filter(repos, all) == Matching(repos, language, minStars, minForks, publicOnly, privateOnly)
  {
    if repos != [] {
      FilterIsMatching(repos[1..], language, minStars, minForks, publicOnly, privateOnly, all);
    }
  }

  /** The five stages together keep what one pass with every condition keeps. */
  lemma {:induction false} StagesAreOneFilter(repos: seq<Repo>, language: Option<string>, minStars: Option<int>,
                           minForks: Option<int>, publicOnly: bool, privateOnly: bool,
                           k1: Repo -> bool, k2: Repo -> bool, k3: Repo -> bool, k4: Repo -> bool,
                           k5: Repo -> bool)
    requires forall x :: k1(x) == LanguageMatches(x, language)
    requires forall x :: k2(x) == StarsAtLeast(x, minStars)
    requires forall x :: k3(x) == ForksAtLeast(x, minForks)
    requires forall x :: k4(x) == !x.isPrivate
    requires forall x :: k5(x) == x.isPrivate
    ensures Stage(Stage(Stage(Stage(Stage(repos, Truthy(language), k1), minStars.Some?, k2),
                                minForks.Some?, k3), publicOnly, k4), privateOnly, k5)
            == Matching(repos, language, minStars, minForks, publicOnly, privateOnly)
  {
    var c123 := (x: Repo) => LanguageMatches(x, language) && StarsAtLeast(x, minStars) && ForksAtLeast(x, minForks);
    var c4 := (x: Repo) => !publicOnly || !x.isPrivate;
    var c5 := (x: Repo) => !privateOnly || x.isPrivate;
    var c1234 := (x: Repo) => c123(x) && c4(x);
    var all := (x: Repo) => c1234(x) && c5(x);

    var s3 := Stage(Stage(Stage(repos, Truthy(language), k1), minStars.Some?, k2), minForks.Some?, k3);
    FirstStagesAreOneFilter(repos, language, minStars, minForks, k1, k2, k3, c123);
    var s4 := Stage(s3, publicOnly, k4);
    StageIsFilter(s3, publicOnly, k4, c4);
    FilterFilter(repos, c123, c4, c1234);
    StageIsFilter(s4, privateOnly, k5, c5);
    FilterFilter(repos, c1234, c5, all);
    FilterIsMatching(repos, language, minStars, minForks, publicOnly, privateOnly, all);
  }

  /** The language, stars and forks stages together are one pass with their three conditions. */
  lemma {:induction false} FirstStagesAreOneFilter(repos: seq<Repo>, language: Option<string>,
                                                   minStars: Option<int>, minForks: Option<int>,
                                                   k1: Repo -> bool, k2: Repo -> bool, k3: Repo -> bool,
                                                   c123: Repo -> bool)
    requires forall x :: k1(x) == LanguageMatches(x, language)
    requires forall x :: k2(x) == StarsAtLeast(x, minStars)
    requires forall x :: k3(x) == ForksAtLeast(x, minForks)
    requires forall x :: c123(x) == (LanguageMatches(x, language) && StarsAtLeast(x, minStars)
                                     && ForksAtLeast(x, minForks))
    ensures Stage(Stage(Stage(repos, Truthy(language), k1), minStars.Some?, k2), minForks.Some?, k3)
            == Filter(repos, c123)
  {
    var c1 := (x: Repo) => LanguageMatches(x, language);
    var c2 := (x: Repo) => StarsAtLeast(x, minStars);
    var c3 := (x: Repo) => ForksAtLeast(x, minForks);
    var c12 := (x: Repo) => c1(x) && c2(x);
    var s1 := Stage(repos, Truthy(language), k1);
    StageIsFilter(repos, Truthy(language), k1, c1);
    var s2 := Stage(s1, minStars.Some?, k2);
    StageIsFilter(s1, minStars.Some?, k2, c2);
    FilterFilter(repos, c1, c2, c12);
    StageIsFilter(s2, minForks.Some?, k3, c3);
    FilterFilter(repos, c12, c3, c123);
  }

  // ---------------------------------------------------------------- sorting

  /**
   * The key `_sort_repositories` sorts by, or `None` for a field it does not
   * know; the fields it knows are exactly the six `validate_sort_field` accepts.
   */
  function SortKey(field: string): (r: Option<Repo -> Key>)
    ensures r.Some? <==> field in SortFields
  {
    if field == "name" then Some((r: Repo) => Ascending(Lower(r.name)))
    else if field == "stars" then Some((r: Repo) => DescendingNumber(r.stargazersCount))
    else if field == "forks" then Some((r: Repo) => DescendingNumber(r.forksCount))
    else if field == "updated" then Some((r: Repo) => DescendingText(r.updatedAt))
    else if field == "created" then Some((r: Repo) => DescendingText(r.createdAt))
    else if field == "size" then Some((r: Repo) => DescendingNumber(r.size))
    else None
  }

  /**
   * `_sort_repositories`: a permutation of the input, sorted by the field's
   * key and stable; an empty list or an unknown field comes back unchanged.
   */
  function SortRepositories(repos: seq<Repo>, field: string): (r: seq<Repo>)
    ensures multiset(r) == multiset(repos) && |r| == |repos|
    ensures repos == [] || SortKey(field).None? ==> r == repos
    ensures SortKey(field).Some? ==> SortedBy(r, SortKey(field).value) && Stable(r, repos, SortKey(field).value)
  {
    if repos == [] then repos
    else match SortKey(field)
      case None => repos
      case Some(key) => SortBy(repos, key)
  }

  /** The order each field produces, spelled out on the records. */
  lemma {:induction false} SortOrder(repos: seq<Repo>, field: string, i: int, j: int)
    requires 0 <= i < j < |repos|
    ensures var r := SortRepositories(repos, field);
      && (field == "name" ==> StrLe(Lower(r[i].name), Lower(r[j].name)))
      && (field == "stars" ==> r[i].stargazersCount >= r[j].stargazersCount)
      && (field == "forks" ==> r[i].forksCount >= r[j].forksCount)
      && (field == "size" ==> r[i].size >= r[j].size)
      && (field == "updated" ==> StrLe(r[j].updatedAt, r[i].updatedAt))
      && (field == "created" ==> StrLe(r[j].createdAt, r[i].createdAt))
  {
    var r := SortRepositories(repos, field);
    if SortKey(field).Some? {
      assert KeyLe(SortKey(field).value(r[i]), SortKey(field).value(r[j]));
    }
  }

  /** Filtering a sorted list keeps it sorted. */
  lemma {:induction false} MatchingKeepsSorted(s: seq<Repo>, language: Option<string>, minStars: Option<int>,
                                               minForks: Option<int>, publicOnly: bool, privateOnly: bool,
                                               key: Repo -> Key)
    requires SortedBy(s, key)
    ensures SortedBy(Matching(s, language, minStars, minForks, publicOnly, privateOnly), key)
  {
    if s != [] {
      MatchingKeepsSorted(s[1..], language, minStars, minForks, publicOnly, privateOnly, key);
      var rest := Matching(s[1..], language, minStars, minForks, publicOnly, privateOnly);
      if MatchesAll(s[0], language, minStars, minForks, publicOnly, privateOnly) {
        var r := [s[0]] + rest;
        forall i, j | 0 <= i < j < |r|
          ensures KeyLe(key(r[i]), key(r[j]))
        {
          if i == 0 {
            assert r[j] in rest;
            var m :| 0 <= m < |s[1..]| && s[1..][m] == r[j];
            assert s[m + 1] == r[j];
          } else {
            assert r[i] == rest[i - 1] && r[j] == rest[j - 1];
          }
        }
      }
    }
  }

  // ---------------------------------------------------------------- analyze

  /**
   * `analyze_repositories` on the dictionary the statistics provider returned:
   * `{}` comes back as `{}`; otherwise the same dictionary comes back with its
   * `"repositories"` entry replaced, in place, by the sorted list.
   */
  method AnalyzeRepositories(stats: Option<StatsDict>, sortField: string) returns (result: Option<StatsDict>)
    modifies Frame(stats)
    ensures result == stats
    ensures stats.Some? ==> stats.value.repositories == SortRepositories(old(stats.value.repositories), sortField)
  {
    if stats.None? {
      return None;
    }
    var repos := stats.value.repositories;
    var sorted := SortRepositories(repos, sortField);
    stats.value.repositories := sorted;
    return stats;
  }

  // ---------------------------------------------------------------- search

  /**
   * `validate_inputs`: the name and limit checks of `validate_analyze_inputs`
   * (its sort field and format defaults always pass), then the visibility
   * flags with this method's own message.
   */
  function ValidateInputs(name: string, limit: Option<int>, publicOnly: bool, privateOnly: bool)
    : (r: Result<(), ValidationError>)
    ensures r.Success? <==> IsLogin(Strip(name)) && (limit.None? || limit.value >= -1)
                            && !(publicOnly && privateOnly)
    ensures r.Failure? && IsLogin(Strip(name)) && (limit.None? || limit.value >= -1)
            ==> r.error == ValidationError("Cannot specify both --public-only and --private-only",
                                           Some("visibility_flags"))
  {
    var _ :- ValidateAnalyzeInputs(name, limit, "updated", "table");
    if publicOnly && privateOnly then
      Fail("Cannot specify both --public-only and --private-only", "visibility_flags")
    else Success(())
  }

  /** `sorted_repos[:limit] if limit else sorted_repos` */
  function Truncate(repos: seq<Repo>, limit: int): (r: seq<Repo>)
    ensures limit > 0 ==> r == repos[..Min(limit, |repos|)]
    ensures limit == 0 ==> r == repos
    ensures limit < 0 ==> r == repos[..if |repos| + limit < 0 then 0 else |repos| + limit]
  {
    if limit != 0 then Slice(repos, 0, limit) else repos
  }

  /** What `search_repositories` can raise. */
  datatype SearchError =
    | Invalid(error: ValidationError)
    | MissingRepositories   // `KeyError: 'repositories'` on the empty dictionary

  /** The list search returns once it has the analysed repositories. */
  function SearchResult(analysed: seq<Repo>, limit: int, sortField: string, language: Option<string>,
                        minStars: Option<int>, minForks: Option<int>, publicOnly: bool,
                        privateOnly: bool): seq<Repo> {
    Truncate(SortRepositories(ApplyFilters(analysed, language, minStars, minForks, publicOnly, privateOnly),
                              sortField), limit)
  }

  /**
   * Sorting again after filtering an already sorted list changes nothing: the
   * search result is the filtered, once-sorted list, cut to the limit.
   */
  lemma {:induction false} SearchSortsOnce(repos: seq<Repo>, limit: int, sortField: string, language: Option<string>,
                        minStars: Option<int>, minForks: Option<int>, publicOnly: bool, privateOnly: bool)
    ensures SearchResult(SortRepositories(repos, sortField), limit, sortField, language, minStars, minForks,
                         publicOnly, privateOnly)
            == Truncate(ApplyFilters(SortRepositories(repos, sortField), language, minStars, minForks,
                                     publicOnly, privateOnly), limit)
  {
    var sorted := SortRepositories(repos, sortField);
    var filtered := ApplyFilters(sorted, language, minStars, minForks, publicOnly, privateOnly);
    if filtered != [] && SortKey(sortField).Some? {
      var key := SortKey(sortField).value;
      MatchingKeepsSorted(sorted, language, minStars, minForks, publicOnly, privateOnly, key);
      SortSorted(filtered, key);
    }
  }

  /**
   * `search_repositories` as written: validation first, then analysis, then
   * `stats["repositories"]`, which raises when the analysis came back empty.
   */
  method SearchRepositoriesAsWritten(name: string, stats: Option<StatsDict>, limit: int, sortField: string,
                                     language: Option<string>, minStars: Option<int>, minForks: Option<int>,
                                     publicOnly: bool, privateOnly: bool)
    returns (r: Result<seq<Repo>, SearchError>)
    modifies Frame(stats)
    ensures ValidateInputs(name, Some(limit), publicOnly, privateOnly).Failure? ==>
      r == Failure(Invalid(ValidateInputs(name, Some(limit), publicOnly, privateOnly).error))
      && unchanged(Frame(stats))
    ensures ValidateInputs(name, Some(limit), publicOnly, privateOnly).Success? && stats.None? ==>
      r == Failure(MissingRepositories)
    ensures ValidateInputs(name, Some(limit), publicOnly, privateOnly).Success? && stats.Some? ==>
      && stats.value.repositories == SortRepositories(old(stats.value.repositories), sortField)
      && r == Success(SearchResult(stats.value.repositories, limit, sortField, language, minStars,
                                   minForks, publicOnly, privateOnly))
  {
    var valid := ValidateInputs(name, Some(limit), publicOnly, privateOnly);
    if valid.Failure? {
      return Failure(Invalid(valid.error));
    }
    var analysed := AnalyzeRepositories(stats, sortField);
    if analysed.None? {
      return Failure(MissingRepositories);
    }
    var repos := analysed.value.repositories;
    var filtered := ApplyFilters(repos, language, minStars, minForks, publicOnly, privateOnly);
    var sorted := SortRepositories(filtered, sortField);
    if limit != 0 {
      sorted := Slice(sorted, 0, limit);
    }
    return Success(sorted);
  }

  /** An empty analysis with valid inputs makes the search as written raise. */
  method SearchOfEmptyAnalysisRaises() returns (r: Result<seq<Repo>, SearchError>)
    ensures r == Failure(MissingRepositories)
  {
    StripLeftOfClean("a");
    StripRightOfClean("a");
    assert Strip("a") == "a";
    assert IsLogin("a");
    assert ValidateInputs("a", Some(100), false, false).Success?;
    r := SearchRepositoriesAsWritten("a", None, 100, "updated", None, None, None, false, false);
  }

  /**
   * `search_repositories` with the empty analysis treated as "no repositories",
   * as the older service does.
   */
  method SearchRepositories(name: string, stats: Option<StatsDict>, limit: int, sortField: string,
                            language: Option<string>, minStars: Option<int>, minForks: Option<int>,
                            publicOnly: bool, privateOnly: bool)
    returns (r: Result<seq<Repo>, ValidationError>)
    modifies Frame(stats)
    ensures r.Failure? <==> ValidateInputs(name, Some(limit), publicOnly, privateOnly).Failure?
    ensures r.Failure? ==>
      r.error == ValidateInputs(name, Some(limit), publicOnly, privateOnly).error && unchanged(Frame(stats))
    ensures r.Success? && stats.None? ==> r.value == []
    ensures r.Success? && stats.Some? ==>
      && stats.value.repositories == SortRepositories(old(stats.value.repositories), sortField)
      && r.value == SearchResult(stats.value.repositories, limit, sortField, language, minStars,
                                 minForks, publicOnly, privateOnly)
  {
    var valid := ValidateInputs(name, Some(limit), publicOnly, privateOnly);
    if valid.Failure? {
      return Failure(valid.error);
    }
    var analysed := AnalyzeRepositories(stats, sortField);
    if analysed.None? {
      return Success([]);
    }
    var repos := analysed.value.repositories;
    var filtered := ApplyFilters(repos, language, minStars, minForks, publicOnly, privateOnly);
    var sorted := SortRepositories(filtered, sortField);
    if limit != 0 {
      sorted := Slice(sorted, 0, limit);
    }
    return Success(sorted);
  }
}
