/**
 * `get_repo_stats`, the aggregation both API clients perform over the
 * fetched repositories (core/api.py and api.py share this code): counts,
 * plain sums, and the ten most used languages with ties in first-seen order.
 */
module Stats {
  import opened Wrappers
  import opened Sequences
  import opened Sorting
  import opened Validation
  import opened Repositories

  function Stars(r: Repo): int { r.stargazersCount }
  function Forks(r: Repo): int { r.forksCount }
  function Size(r: Repo): int { r.size }
  predicate IsPublic(r: Repo) { !r.isPrivate }
  predicate IsPrivate(r: Repo) { r.isPrivate }
  predicate IsArchived(r: Repo) { r.archived }

  // ---------------------------------------------------------------- languages

  /** `languages[lang] = languages.get(lang, 0) + 1` on an insertion-ordered dict. */
  function Bump(t: seq<(string, int)>, lang: string): (r: seq<(string, int)>)
    ensures |t| <= |r| <= |t| + 1
  {
    if t == [] then [(lang, 1)]
    else if t[0].0 == lang then [(lang, t[0].1 + 1)] + t[1..]
    else [t[0]] + Bump(t[1..], lang)
  }

  /** The `languages` dict after the loop has seen `repos`. */
  function Tally(repos: seq<Repo>): seq<(string, int)>
    decreases |repos|
  {
    if repos == [] then []
    else
      var t := Tally(repos[..|repos| - 1]);
      var last := repos[|repos| - 1];
      if Truthy(last.language) then Bump(t, last.language.value) else t
  }

  /** How many repositories have exactly this language. */
  function Count(repos: seq<Repo>, lang: string): nat
    decreases |repos|
  {
    if repos == [] then 0
    else Count(repos[..|repos| - 1], lang) + (if repos[|repos| - 1].language == Some(lang) then 1 else 0)
  }

  /** The truthy languages of `repos`, repeats included, in order. */
  function Languages(repos: seq<Repo>): seq<string>
    decreases |repos|
  {
    if repos == [] then []
    else
      var last := repos[|repos| - 1];
      Languages(repos[..|repos| - 1]) + (if Truthy(last.language) then [last.language.value] else [])
  }

  /** First occurrences only, in the order they occur. */
  function Dedup(s: seq<string>): seq<string>
    decreases |s|
  {
    if s == [] then []
    else
      var d := Dedup(s[..|s| - 1]);
      if s[|s| - 1] in d then d else d + [s[|s| - 1]]
  }

  function Keys(t: seq<(string, int)>): seq<string> {
    seq(|t|, i requires 0 <= i < |t| => t[i].0)
  }

  lemma {:induction false} BumpKeys(t: seq<(string, int)>, lang: string)
    ensures Keys(Bump(t, lang)) == if lang in Keys(t) then Keys(t) else Keys(t) + [lang]
  {
    if t != [] {
      KeysCons(t);
      KeysCons(Bump(t, lang));
      if t[0].0 != lang {
        BumpKeys(t[1..], lang);
        assert Keys(t) + [lang] == [t[0].0] + (Keys(t[1..]) + [lang]);
      } else {
        assert Bump(t, lang)[1..] == t[1..];
      }
    }
  }

  lemma {:induction false} KeysCons(t: seq<(string, int)>)
    requires t != []
    ensures Keys(t) == [t[0].0] + Keys(t[1..])
  {
  }

  /** Each entry's count goes up by one for the bumped language and stays put otherwise. */
  lemma {:induction false} BumpCounts(t: seq<(string, int)>, lang: string, i: nat)
    requires i < |t|
    ensures Bump(t, lang)[i] == (t[i].0, t[i].1 + (if t[i].0 == lang && lang !in Keys(t[..i]) then 1 else 0))
  {
    if t[0].0 != lang && i > 0 {
      BumpCounts(t[1..], lang, i - 1);
      assert Keys(t[..i]) == [t[0].0] + Keys(t[1..][..i - 1]);
    } else if i > 0 {
      assert Keys(t[..i])[0] == lang;
    }
  }

  lemma {:induction false} BumpNew(t: seq<(string, int)>, lang: string)
    requires lang !in Keys(t)
    ensures Bump(t, lang) == t + [(lang, 1)]
    decreases |t|
  {
    if t != [] {
      assert Keys(t) == [t[0].0] + Keys(t[1..]);
      BumpNew(t[1..], lang);
      assert t == [t[0]] + t[1..];
    }
  }

  /** The dict's keys are the languages in the order each was first seen. */
  lemma {:induction false} TallyKeys(repos: seq<Repo>)
    ensures Keys(Tally(repos)) == Dedup(Languages(repos))
    decreases |repos|
  {
    if repos != [] {
      var init := repos[..|repos| - 1];
      var last := repos[|repos| - 1];
      TallyKeys(init);
      var ls := Languages(repos);
      if Truthy(last.language) {
        BumpKeys(Tally(init), last.language.value);
        assert ls[..|ls| - 1] == Languages(init);
      } else {
        assert ls == Languages(init);
      }
    }
  }

  predicate Distinct(s: seq<string>) {
    forall i, j :: 0 <= i < j < |s| ==> s[i] != s[j]
  }

  lemma {:induction false} DedupFacts(s: seq<string>)
    ensures Distinct(Dedup(s))
    ensures forall x :: x in Dedup(s) <==> x in s
    decreases |s|
  {
    if s != [] {
      DedupFacts(s[..|s| - 1]);
      assert s == s[..|s| - 1] + [s[|s| - 1]];
    }
  }

  /**
   * A language is a key of the dict exactly when it is non-empty and some
   * repository has it; keys are never repeated.
   */
  lemma {:induction false} TallyMembers(repos: seq<Repo>, lang: string)
    ensures lang in Keys(Tally(repos)) <==> lang != [] && exists r :: r in repos && r.language == Some(lang)
    ensures Distinct(Keys(Tally(repos)))
    decreases |repos|
  {
    TallyKeys(repos);
    DedupFacts(Languages(repos));
    LanguagesMembers(repos, lang);
  }

  lemma {:induction false} LanguagesMembers(repos: seq<Repo>, lang: string)
    ensures lang in Languages(repos) <==> lang != [] && exists r :: r in repos && r.language == Some(lang)
    decreases |repos|
  {
    if repos != [] {
      var init := repos[..|repos| - 1];
      LanguagesMembers(init, lang);
      assert repos == init + [repos[|repos| - 1]];
    }
  }

  /** Every entry of the dict counts exactly the repositories with that language. */
  lemma {:induction false} TallyCounts(repos: seq<Repo>, i: nat)
    requires i < |Tally(repos)|
    ensures Tally(repos)[i].1 == Count(repos, Tally(repos)[i].0)
    ensures Tally(repos)[i].0 != []
    decreases |repos|
  {
    var init := repos[..|repos| - 1];
    var last := repos[|repos| - 1];
    var t := Tally(init);
    TallyKeys(init);
    DedupFacts(Languages(init));
    if Truthy(last.language) {
      var lang := last.language.value;
      BumpKeys(t, lang);
      if i < |t| {
        TallyCounts(init, i);
        BumpCounts(t, lang, i);
        assert Keys(t)[i] == t[i].0;
        if t[i].0 == lang {
          forall j | 0 <= j < i
            ensures Keys(t[..i])[j] != lang
          {
            assert Keys(t[..i])[j] == Keys(t)[j];
          }
        }
      } else {
        assert lang !in Keys(t);
        BumpNew(t, lang);
        CountAbsent(init, lang);
      }
    } else {
      TallyCounts(init, i);
    }
  }

  /** A language never seen so far has count zero. */
  lemma {:induction false} CountAbsent(repos: seq<Repo>, lang: string)
    requires lang != [] && lang !in Keys(Tally(repos))
    ensures Count(repos, lang) == 0
    decreases |repos|
  {
    if repos != [] {
      var init := repos[..|repos| - 1];
      var last := repos[|repos| - 1];
      TallyKeys(repos);
      TallyKeys(init);
      DedupFacts(Languages(repos));
      DedupFacts(Languages(init));
      var ls := Languages(repos);
      if Truthy(last.language) {
        assert ls[|ls| - 1] == last.language.value;
        assert ls[..|ls| - 1] == Languages(init);
      } else {
        assert ls == Languages(init);
      }
      CountAbsent(init, lang);
    }
  }

  // ---------------------------------------------------------------- top ten

  function CountKey(entry: (string, int)): Key { DescendingNumber(entry.1) }

  /** `sorted(languages.items(), key=count, reverse=True)[:10]` */
  function TopLanguages(t: seq<(string, int)>): (r: seq<(string, int)>)
    ensures |r| == if |t| < 10 then |t| else 10
    ensures r == SortBy(t, CountKey)[..|r|]
  {
    Slice(SortBy(t, CountKey), 0, 10)
  }

  /** The top languages come in non-increasing order of count. */
  lemma {:induction false} TopLanguagesDescending(t: seq<(string, int)>, i: int, j: int)
    requires 0 <= i < j < |TopLanguages(t)|
    ensures TopLanguages(t)[i].1 >= TopLanguages(t)[j].1
  {
    var sorted := SortBy(t, CountKey);
    assert KeyLe(CountKey(sorted[i]), CountKey(sorted[j]));
  }

  /** Every top language is a dict entry, and no entry left out outranks one kept. */
  lemma {:induction false} TopLanguagesAreTop(t: seq<(string, int)>, e: (string, int))
    requires e in t
    ensures |TopLanguages(t)| < 10 ==> e in TopLanguages(t)
    ensures e !in TopLanguages(t) ==> forall i :: 0 <= i < |TopLanguages(t)| ==> e.1 <= TopLanguages(t)[i].1
  {
    var sorted := SortBy(t, CountKey);
    var top := TopLanguages(t);
    assert e in multiset(sorted);
    var m :| 0 <= m < |sorted| && sorted[m] == e;
    if |top| < 10 {
      assert top == sorted;
    }
    if e !in top {
      forall i | 0 <= i < |top|
        ensures e.1 <= top[i].1
      {
        assert KeyLe(CountKey(sorted[i]), CountKey(sorted[m]));
      }
    }
  }

  lemma {:induction false} TopLanguagesFromTally(t: seq<(string, int)>, e: (string, int))
    requires e in TopLanguages(t)
    ensures e in t
  {
    assert e in multiset(SortBy(t, CountKey));
  }

  predicate IsPrefix<T(==)>(a: seq<T>, b: seq<T>) {
    |a| <= |b| && b[..|a|] == a
  }

  /** Languages with equal counts keep the dict's order: those kept are the first ones of their count. */
  lemma {:induction false} TopLanguagesTies(t: seq<(string, int)>, n: int)
    ensures IsPrefix(WithKey(TopLanguages(t), CountKey, DescendingNumber(n)),
                     WithKey(t, CountKey, DescendingNumber(n)))
  {
    var sorted := SortBy(t, CountKey);
    var top := TopLanguages(t);
    var k := DescendingNumber(n);
    assert sorted == top + sorted[|top|..];
    WithKeyConcat(top, sorted[|top|..], CountKey, k);
    assert WithKey(sorted, CountKey, k) == WithKey(t, CountKey, k);
  }

  lemma {:induction false} WithKeyConcat<T>(a: seq<T>, b: seq<T>, key: T -> Key, k: Key)
    ensures WithKey(a + b, key, k) == WithKey(a, key, k) + WithKey(b, key, k)
  {
    if a != [] {
      WithKeyConcat(a[1..], b, key, k);
      assert (a + b)[1..] == a[1..] + b;
      assert (a + b)[0] == a[0];
    } else {
      assert a + b == b;
    }
  }

  // ---------------------------------------------------------------- summary

  /** The statistics dictionary's entries other than `"repositories"`. */
  function Summarize(repos: seq<Repo>): Summary {
    var publicCount := |Filter(repos, IsPublic)|;
    Summary(
      |repos|, publicCount, |repos| - publicCount, |Filter(repos, IsArchived)|,
      SumOf(repos, Stars), SumOf(repos, Forks), SumOf(repos, Size),
      TopLanguages(Tally(repos)))
  }

  /** The private count is the number of private repositories. */
  lemma {:induction false} PrivateCount(repos: seq<Repo>)
    ensures Summarize(repos).privateRepositories == |Filter(repos, IsPrivate)|
    ensures Summarize(repos).publicRepositories + Summarize(repos).privateRepositories
            == Summarize(repos).totalRepositories
  {
    FilterSplit(repos, IsPrivate, IsPublic);
  }

  /** Reordering the repositories changes none of the totals. */
  lemma {:induction false} TotalsIgnoreOrder(a: seq<Repo>, b: seq<Repo>)
    requires multiset(a) == multiset(b)
    ensures Summarize(a).totalRepositories == Summarize(b).totalRepositories
    ensures Summarize(a).totalStars == Summarize(b).totalStars
    ensures Summarize(a).totalForks == Summarize(b).totalForks
    ensures Summarize(a).totalSize == Summarize(b).totalSize
  {
    assert |a| == |multiset(a)| == |multiset(b)| == |b|;
    SumOfPermutation(a, b, Stars);
    SumOfPermutation(a, b, Forks);
    SumOfPermutation(a, b, Size);
  }

  /**
   * The loop of `get_repo_stats`: one pass that fills the `languages` dict
   * and the three running totals.
   */
  method Aggregate(repos: seq<Repo>) returns (languages: seq<(string, int)>, totalStars: int,
                                             totalForks: int, totalSize: int)
    ensures languages == Tally(repos)
    ensures totalStars == SumOf(repos, Stars)
    ensures totalForks == SumOf(repos, Forks)
    ensures totalSize == SumOf(repos, Size)
  {
    languages, totalStars, totalForks, totalSize := [], 0, 0, 0;
    var i := 0;
    while i < |repos|
      invariant 0 <= i <= |repos|
      invariant languages == Tally(repos[..i])
      invariant totalStars == SumOf(repos[..i], Stars)
      invariant totalForks == SumOf(repos[..i], Forks)
      invariant totalSize == SumOf(repos[..i], Size)
    {
      var repo := repos[i];
      if Truthy(repo.language) {
        languages := Bump(languages, repo.language.value);
      }
      totalStars := totalStars + repo.stargazersCount;
      totalForks := totalForks + repo.forksCount;
      totalSize := totalSize + repo.size;
      assert repos[..i + 1][..i] == repos[..i];
      assert repos[..i + 1] == repos[..i] + [repo];
      SumOfConcat(repos[..i], [repo], Stars);
      SumOfConcat(repos[..i], [repo], Forks);
      SumOfConcat(repos[..i], [repo], Size);
      i := i + 1;
    }
    assert repos[..i] == repos;
  }

  /**
   * `get_repo_stats`: `{}` for no repositories, otherwise a new dictionary
   * holding the summary and the repositories as fetched.
   */
  method GetRepoStats(repos: seq<Repo>) returns (stats: Option<StatsDict>)
    ensures stats.None? <==> repos == []
    ensures stats.Some? ==> fresh(stats.value) && stats.value.summary == Summarize(repos)
                            && stats.value.repositories == repos
  {
    if repos == [] {
      return None;
    }
    var total := |repos|;
    var publicCount := |Filter(repos, IsPublic)|;
    var privateCount := total - publicCount;
    var archivedCount := |Filter(repos, IsArchived)|;
    var languages, totalStars, totalForks, totalSize := Aggregate(repos);
    var top := TopLanguages(languages);
    var dict := new StatsDict(
      Summary(total, publicCount, privateCount, archivedCount, totalStars, totalForks, totalSize, top),
      repos);
    return Some(dict);
  }
}
