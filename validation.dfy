/**
 * validation.py: guard functions that either return a normalised value or
 * raise a `ValidationError` naming the offending field.
 */
module Validation {
  import opened Wrappers
  import opened Text

  /** `ValidationError(message, field)`; `field` is optional in the constructor. */
  datatype ValidationError = ValidationError(message: string, field: Option<string>)

  function Fail<T>(message: string, field: string): Result<T, ValidationError> {
    Failure(ValidationError(message, Some(field)))
  }

  // ---------------------------------------------------------------- logins

  const UsernameField := "username_or_org"
  const MaxLoginLength := 39

  predicate IsLoginChar(c: char) {
    IsAlnum(c) || c == '_' || c == '-'
  }

  predicate AllLoginChars(s: string) {
    forall i | 0 <= i < |s| :: IsLoginChar(s[i])
  }

  /** GitHub's login rules, stated on their own. */
  predicate IsLogin(name: string) {
    && 1 <= |name| <= MaxLoginLength
    && AllLoginChars(name)
    && name[0] != '-' && name[|name| - 1] != '-'
    && NoDoubleHyphen(name)
  }

  predicate NoDoubleHyphen(s: string) {
    forall i :: 0 <= i < |s| - 1 ==> !(s[i] == '-' && s[i + 1] == '-')
  }

  /** The string tests the validator performs agree with the rules as stated. */
  lemma {:induction false} HyphenTests(s: string)
    ensures Contains(s, "--") <==> !NoDoubleHyphen(s)
    ensures s != [] ==> (StartsWith(s, "-") <==> s[0] == '-')
    ensures s != [] ==> (EndsWith(s, "-") <==> s[|s| - 1] == '-')
  {
    ContainsAt(s, "--");
    if Contains(s, "--") {
      var i :| OccursAt(s, "--", i);
      assert s[i] == s[i..i + 2][0] && s[i + 1] == s[i..i + 2][1];
    }
    if !NoDoubleHyphen(s) {
      var i :| 0 <= i < |s| - 1 && s[i] == '-' && s[i + 1] == '-';
      assert s[i..i + 2] == "--";
      assert OccursAt(s, "--", i);
    }
    if s != [] {
      assert StartsWith(s, "-") ==> s[..1][0] == s[0];
      assert s[0] == '-' ==> s[..1] == "-";
      assert EndsWith(s, "-") ==> s[|s| - 1..][0] == s[|s| - 1];
      assert s[|s| - 1] == '-' ==> s[|s| - 1..] == "-";
    }
  }

  const EmptyLoginMessage := "Username or organization name cannot be empty"

  const TooLongMessage := "Username or organization name cannot exceed 39 characters"
  const LoginCharsMessage := "Username or organization name can only contain alphanumeric characters, "
                             + "hyphens, and underscores"
  const HyphenEndsMessage := "Username or organization name cannot start or end with hyphens"
  const DoubleHyphenMessage := "Username or organization name cannot have consecutive hyphens"

  /**
   * The message for the first login rule a stripped, non-empty name breaks,
   * checked in the order `validate_username_or_org` checks them: length,
   * characters, a hyphen at either end, two hyphens in a row.
   */
  function LoginProblem(cleaned: string): (r: Option<string>)
    requires cleaned != []
    ensures r.None? <==> IsLogin(cleaned)
    ensures |cleaned| > MaxLoginLength ==> r == Some(TooLongMessage)
    ensures |cleaned| <= MaxLoginLength && !AllLoginChars(cleaned) ==> r == Some(LoginCharsMessage)
    ensures (&& |cleaned| <= MaxLoginLength && AllLoginChars(cleaned)
             && (cleaned[0] == '-' || cleaned[|cleaned| - 1] == '-'))
            ==> r == Some(HyphenEndsMessage)
    ensures (&& |cleaned| <= MaxLoginLength && AllLoginChars(cleaned)
             && cleaned[0] != '-' && cleaned[|cleaned| - 1] != '-'
             && !NoDoubleHyphen(cleaned))
            ==> r == Some(DoubleHyphenMessage)
  {
    HyphenTests(cleaned);
    if |cleaned| > MaxLoginLength then Some(TooLongMessage)
    else if !AllLoginChars(cleaned) then Some(LoginCharsMessage)
    else if StartsWith(cleaned, "-") || EndsWith(cleaned, "-") then Some(HyphenEndsMessage)
    else if Contains(cleaned, "--") then Some(DoubleHyphenMessage)
    else None
  }

  /** `validate_username_or_org` */
  function ValidateUsernameOrOrg(name: string): (r: Result<string, ValidationError>)
    ensures r.Success? <==> IsLogin(Strip(name))
    ensures r.Success? ==> r.value == Strip(name)
    ensures r.Failure? ==> r.error.field == Some(UsernameField)
    ensures AllSpace(name) ==> r == Fail(EmptyLoginMessage, UsernameField)
    ensures Strip(name) != [] && !IsLogin(Strip(name)) ==> r == Fail(LoginProblem(Strip(name)).value, UsernameField)
  {
    var cleaned := Strip(name);
    if name == [] then
      Fail(EmptyLoginMessage, UsernameField)
    else if cleaned == [] then
      StripEmpty(name);
      Fail(EmptyLoginMessage, UsernameField)
    else
      StripEmpty(name);
      var problem := LoginProblem(cleaned);
      if problem.Some? then Fail(problem.value, UsernameField)
      else Success(cleaned)
  }

  // ---------------------------------------------------------------- numbers

  /** `validate_limit`: `None` passes, `-1` and up pass unchanged. */
  function ValidateLimit(limit: Option<int>, fieldName: string): (r: Result<Option<int>, ValidationError>)
    ensures r.Success? <==> limit.None? || limit.value >= -1
    ensures r.Success? ==> r.value == limit
    ensures r.Failure? ==> r.error.field == Some(fieldName)
  {
    if limit.None? then Success(None)
    else if limit.value < -1 then
      Fail(fieldName + " must be -1 (unlimited) or non-negative", fieldName)
    else Success(limit)
  }

  const MaxMinStars := 1000000
  const MaxMinForks := 100000

  /** `validate_min_stars` */
  function ValidateMinStars(minStars: Option<int>): (r: Result<Option<int>, ValidationError>)
    ensures r.Success? <==> minStars.None? || 0 <= minStars.value <= MaxMinStars
    ensures r.Success? ==> r.value == minStars
    ensures r.Failure? ==> r.error.field == Some("min_stars")
  {
    if minStars.None? then Success(None)
    else if minStars.value < 0 then Fail("Minimum stars must be non-negative", "min_stars")
    else if minStars.value > MaxMinStars then Fail("Minimum stars cannot exceed 1,000,000", "min_stars")
    else Success(minStars)
  }

  /** `validate_min_forks` */
  function ValidateMinForks(minForks: Option<int>): (r: Result<Option<int>, ValidationError>)
    ensures r.Success? <==> minForks.None? || 0 <= minForks.value <= MaxMinForks
    ensures r.Success? ==> r.value == minForks
    ensures r.Failure? ==> r.error.field == Some("min_forks")
  {
    if minForks.None? then Success(None)
    else if minForks.value < 0 then Fail("Minimum forks must be non-negative", "min_forks")
    else if minForks.value > MaxMinForks then Fail("Minimum forks cannot exceed 100,000", "min_forks")
    else Success(minForks)
  }

  const MaxCacheTtl := 86400 * 30

  /** `validate_cache_ttl`: at most thirty days. */
  function ValidateCacheTtl(ttl: int): (r: Result<int, ValidationError>)
    ensures r.Success? <==> 0 <= ttl <= 2592000
    ensures r.Success? ==> r.value == ttl
    ensures r.Failure? ==> r.error.field == Some("cache_ttl")
  {
    if ttl < 0 then Fail("Cache TTL must be non-negative", "cache_ttl")
    else if ttl > MaxCacheTtl then Fail("Cache TTL cannot exceed 30 days (2,592,000 seconds)", "cache_ttl")
    else Success(ttl)
  }

  // ---------------------------------------------------------------- choices

  const SortFields: set<string> := {"name", "stars", "forks", "updated", "created", "size"}
  const OutputFormats: set<string> := {"table", "json", "summary"}

  /** `validate_sort_field`: the identity on the six sort fields. */
  function ValidateSortField(field: string): (r: Result<string, ValidationError>)
    ensures r.Success? <==> field in SortFields
    ensures r.Success? ==> r.value == field
    ensures r.Failure? ==> r.error.field == Some("sort_field")
  {
    if field !in SortFields then
      Fail("Sort field must be one of: created, forks, name, size, stars, updated", "sort_field")
    else Success(field)
  }

  /** `validate_output_format`: the identity on the three formats. */
  function ValidateOutputFormat(format: string): (r: Result<string, ValidationError>)
    ensures r.Success? <==> format in OutputFormats
    ensures r.Success? ==> r.value == format
    ensures r.Failure? ==> r.error.field == Some("output_format")
  {
    if format !in OutputFormats then
      Fail("Output format must be one of: json, summary, table", "output_format")
    else Success(format)
  }

  /** `validate_visibility_flags`: the two flags exclude each other. */
  function ValidateVisibilityFlags(publicOnly: bool, privateOnly: bool): (r: Result<(), ValidationError>)
    ensures r.Failure? <==> publicOnly && privateOnly
    ensures r.Failure? ==> r.error.field == Some("visibility_flags")
  {
    if publicOnly && privateOnly then
      Fail("Cannot specify both --public-only and --private-only flags", "visibility_flags")
    else Success(())
  }

  // ---------------------------------------------------------------- text

  predicate IsLanguageChar(c: char) {
    IsAlnum(c) || IsSpace(c) || c == '-' || c == '+' || c == '.' || c == '#' || c == '/'
  }

  predicate AllLanguageChars(s: string) {
    forall i | 0 <= i < |s| :: IsLanguageChar(s[i])
  }

  const MaxLanguageLength := 50

  /** Title-casing neither changes the length nor lets a character in or out of the allowed set. */
  lemma {:induction false} TitleKeepsLanguageChars(s: string)
    ensures |Title(s)| == |s|
    ensures AllLanguageChars(Title(s)) <==> AllLanguageChars(s)
  {
    forall i | 0 <= i < |s|
      ensures IsLanguageChar(Title(s)[i]) <==> IsLanguageChar(s[i])
    {
      ToLowerLetter(s[i]);
    }
  }

  /**
   * `validate_language`: absent or blank input means "no filter"; otherwise
   * the stripped, title-cased name, which must be at most 50 characters drawn
   * from letters, digits, whitespace and `-+.#/`. Title-casing happens first,
   * but the accepted inputs are exactly those whose stripped form passes.
   */
  function ValidateLanguage(language: Option<string>): (r: Result<Option<string>, ValidationError>)
    ensures r == Success(None) <==> language.None? || AllSpace(language.value)
    ensures r.Failure? <==> language.Some? && !AllSpace(language.value)
                            && (|Strip(language.value)| > MaxLanguageLength
                                || !AllLanguageChars(Strip(language.value)))
    ensures r.Success? && r.value.Some? ==> language.Some? && r.value.value == Title(Strip(language.value))
    ensures r.Failure? ==> r.error.field == Some("language")
  {
    if language.None? || language.value == [] then Success(None)
    else
      var stripped := Strip(language.value);
      var cleaned := Title(stripped);
      StripEmpty(language.value);
      TitleKeepsLanguageChars(stripped);
      if cleaned == [] then Success(None)
      else if |cleaned| > MaxLanguageLength then
        Fail("Programming language name cannot exceed 50 characters", "language")
      else if !AllLanguageChars(cleaned) then
        Fail("Programming language name contains invalid characters", "language")
      else Success(Some(cleaned))
  }

  const MaxCacheDirLength := 500

  /** `validate_cache_dir`: the stripped path, non-empty and at most 500 characters. */
  function ValidateCacheDir(dir: string): (r: Result<string, ValidationError>)
    ensures r.Success? <==> !AllSpace(dir) && |Strip(dir)| <= MaxCacheDirLength
    ensures r.Success? ==> r.value == Strip(dir)
    ensures r.Failure? ==> r.error.field == Some("cache_dir")
  {
    var cleaned := Strip(dir);
    StripEmpty(dir);
    if dir == [] then Fail("Cache directory cannot be empty", "cache_dir")
    else if cleaned == [] then Fail("Cache directory cannot be empty", "cache_dir")
    else if |cleaned| > MaxCacheDirLength then
      Fail("Cache directory path cannot exceed 500 characters", "cache_dir")
    else Success(cleaned)
  }

  const MinTokenLength := 20
  const MaxTokenLength := 200

  /** `validate_github_token`: the stripped token, between 20 and 200 characters. */
  function ValidateGithubToken(token: string): (r: Result<string, ValidationError>)
    ensures r.Success? <==> MinTokenLength <= |Strip(token)| <= MaxTokenLength
    ensures r.Success? ==> r.value == Strip(token)
    ensures r.Failure? ==> r.error.field == Some("github_token")
    ensures 0 < |Strip(token)| < MinTokenLength ==> r.error.message == "GitHub token appears to be too short"
    ensures |Strip(token)| > MaxTokenLength ==> r.error.message == "GitHub token appears to be too long"
  {
    var cleaned := Strip(token);
    if token == [] then Fail("GitHub token cannot be empty", "github_token")
    else if cleaned == [] then Fail("GitHub token cannot be empty", "github_token")
    else if |cleaned| < MinTokenLength then Fail("GitHub token appears to be too short", "github_token")
    else if |cleaned| > MaxTokenLength then Fail("GitHub token appears to be too long", "github_token")
    else Success(cleaned)
  }

  // ---------------------------------------------------------------- composites

  datatype AnalyzeInputs = AnalyzeInputs(
    usernameOrOrg: string, limit: Option<int>, sortField: string, outputFormat: string)

  /** `validate_analyze_inputs`: the four checks, in the order the result dict lists them. */
  function ValidateAnalyzeInputs(name: string, limit: Option<int>, sortField: string, outputFormat: string)
    : (r: Result<AnalyzeInputs, ValidationError>)
    ensures r.Success? <==> IsLogin(Strip(name)) && (limit.None? || limit.value >= -1)
                            && sortField in SortFields && outputFormat in OutputFormats
    ensures r.Success? ==> r.value == AnalyzeInputs(Strip(name), limit, sortField, outputFormat)
    ensures ValidateUsernameOrOrg(name).Failure? ==> r == Failure(ValidateUsernameOrOrg(name).error)
  {
    var user :- ValidateUsernameOrOrg(name);
    var lim :- ValidateLimit(limit, "limit");
    var sort :- ValidateSortField(sortField);
    var format :- ValidateOutputFormat(outputFormat);
    Success(AnalyzeInputs(user, lim, sort, format))
  }

  datatype SearchInputs = SearchInputs(
    usernameOrOrg: string, limit: Option<int>, sortField: string, language: Option<string>,
    minStars: Option<int>, minForks: Option<int>, publicOnly: bool, privateOnly: bool)

  /** `validate_search_inputs`: the visibility flags are checked before any other field. */
  function ValidateSearchInputs(name: string, limit: Option<int>, sortField: string,
                                language: Option<string>, minStars: Option<int>,
                                minForks: Option<int>, publicOnly: bool, privateOnly: bool)
    : (r: Result<SearchInputs, ValidationError>)
    ensures publicOnly && privateOnly ==> r.Failure? && r.error.field == Some("visibility_flags")
    ensures r.Success? <==> !(publicOnly && privateOnly) && IsLogin(Strip(name))
                            && (limit.None? || limit.value >= -1) && sortField in SortFields
                            && ValidateLanguage(language).Success?
                            && ValidateMinStars(minStars).Success? && ValidateMinForks(minForks).Success?
    ensures r.Success? ==> r.value.usernameOrOrg == Strip(name) && r.value.limit == limit
                           && r.value.minStars == minStars && r.value.minForks == minForks
                           && r.value.language == ValidateLanguage(language).value
                           && r.value.sortField == sortField
                           && r.value.publicOnly == publicOnly && r.value.privateOnly == privateOnly
  {
    var _ :- ValidateVisibilityFlags(publicOnly, privateOnly);
    var user :- ValidateUsernameOrOrg(name);
    var lim :- ValidateLimit(limit, "limit");
    var sort :- ValidateSortField(sortField);
    var lang :- ValidateLanguage(language);
    var stars :- ValidateMinStars(minStars);
    var forks :- ValidateMinForks(minForks);
    Success(SearchInputs(user, lim, sort, lang, stars, forks, publicOnly, privateOnly))
  }

  datatype ConfigInputs = ConfigInputs(cacheDir: string, cacheTtl: int, token: Option<string>)

  /** Python truthiness of an optional string. */
  predicate Truthy(s: Option<string>) {
    s.Some? && s.value != []
  }

  /** `validate_config_inputs`: the token is validated and reported only when one is given. */
  function ValidateConfigInputs(token: Option<string>, cacheDir: string, cacheTtl: int)
    : (r: Result<ConfigInputs, ValidationError>)
    ensures r.Success? ==> (r.value.token.Some? <==> Truthy(token))
    ensures r.Success? <==> ValidateCacheDir(cacheDir).Success? && ValidateCacheTtl(cacheTtl).Success?
                            && (Truthy(token) ==> ValidateGithubToken(token.value).Success?)
    ensures r.Success? ==> r.value.cacheDir == Strip(cacheDir) && r.value.cacheTtl == cacheTtl
    ensures r.Success? && Truthy(token) ==> r.value.token == Some(Strip(token.value))
  {
    var dir :- ValidateCacheDir(cacheDir);
    var ttl :- ValidateCacheTtl(cacheTtl);
    if Truthy(token) then
      var t :- ValidateGithubToken(token.value);
      Success(ConfigInputs(dir, ttl, Some(t)))
    else
      Success(ConfigInputs(dir, ttl, None))
  }
}
