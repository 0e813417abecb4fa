/**
 * The repository record as the services read it (core/models.py) and the
 * statistics dictionary both clients' `get_repo_stats` return.
 */
module Repositories {
  import opened Wrappers

  /** The fields of `Repository` that the analysis reads. */
  datatype Repo = Repo(
    name: string,
    language: Option<string>,
    stargazersCount: int,
    forksCount: int,
    size: int,
    createdAt: string,
    updatedAt: string,
    isPrivate: bool,
    archived: bool)

  /** Everything in the statistics dictionary except its `"repositories"` entry. */
  datatype Summary = Summary(
    totalRepositories: int,
    publicRepositories: int,
    privateRepositories: int,
    archivedRepositories: int,
    totalStars: int,
    totalForks: int,
    totalSize: int,
    topLanguages: seq<(string, int)>)

  /**
   * A non-empty statistics dictionary. Its `"repositories"` entry is the one
   * the services overwrite in place; the other entries never change after
   * the dictionary is built.
   */
  class StatsDict {
    const summary: Summary
    var repositories: seq<Repo>

    constructor(summary: Summary, repositories: seq<Repo>)
      ensures this.summary == summary && this.repositories == repositories
    {
      this.summary := summary;
      this.repositories := repositories;
    }
  }

  /** The frame of an optional statistics dictionary (`{}` is `None`). */
  function Frame(stats: Option<StatsDict>): set<object> {
    if stats.Some? then {stats.value} else {}
  }
}
