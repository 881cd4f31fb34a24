/** What the two GitLab request senders share: the shapes of the GitLab v4
    responses they read, `requests.get` as an input, the project URL they all
    start from, and the `owner` and `_timestamp` conversions. */
module GitLabApi {
  import opened Common

  /** A fetched response: its status code and its parsed JSON body. */
  datatype Response<T> = Response(statusCode: int, json: T)

  /** The fields of a GitLab project, branch, commit, ref and contributor
      that the senders read. */
  datatype ProjectInfo = ProjectInfo(id: int, name: string, createdAt: string, pathWithNamespace: string, webUrl: string)
  datatype BranchInfo = BranchInfo(name: string)
  datatype CommitInfo = CommitInfo(
    id: string, committerName: string, authorName: string, message: string,
    createdAt: string, committedDate: string)
  datatype RefInfo = RefInfo(name: string)
  datatype ContributorInfo = ContributorInfo(name: string, email: string, commits: int)

  /** `requests.get(url)` for every endpoint the senders call, as a function
      of the URL, and the timezone-dependent `strptime(...).timestamp()`
      conversion that `_timestamp` applies to a trimmed date. */
  datatype Api = Api(
    project: string -> Response<ProjectInfo>,
    branches: string -> Response<seq<BranchInfo>>,
    commits: string -> Response<seq<CommitInfo>>,
    commit: string -> Response<CommitInfo>,
    refs: string -> Response<seq<RefInfo>>,
    contributors: string -> Response<seq<ContributorInfo>>,
    parseDate: string -> int)

  /** The separator between owner and repository in a project URL: the
      percent-encoded "/". */
  const PathSeparator: string := "%2F"

  /** The `base_url`, `owner` and `repo` a sender is built with. */
  datatype Project = Project(baseUrl: string, owner: string, repo: string)

  /** `base_url + owner + "%2F" + repo`, the URL every endpoint extends. */
  function ProjectUrl(p: Project): string {
    p.baseUrl + p.owner + PathSeparator + p.repo
  }

  /** Two projects on the same base URL have the same project URL only if they
      are the same project, as long as owner names carry no '%' (GitLab user
      and group names cannot). */
  lemma ProjectUrlInjective(p1: Project, p2: Project)
    requires p1.baseUrl == p2.baseUrl
    requires '%' !in p1.owner && '%' !in p2.owner
    requires ProjectUrl(p1) == ProjectUrl(p2)
    ensures p1 == p2
  {
    var u1 := p1.owner + PathSeparator + p1.repo;
    var u2 := p2.owner + PathSeparator + p2.repo;
    assert u1 == ProjectUrl(p1)[|p1.baseUrl|..];
    assert u2 == ProjectUrl(p2)[|p2.baseUrl|..];
    SplitPath(p1.owner, p1.repo);
    SplitPath(p2.owner, p2.repo);
  }

  /** The owner is the path up to the first '%', the repository what follows
      the separator. */
  lemma SplitPath(owner: string, repo: string)
    requires '%' !in owner
    ensures FirstField(owner + PathSeparator + repo, '%') == owner
    ensures (owner + PathSeparator + repo)[|owner| + 3..] == repo
  {
    assert owner + PathSeparator + repo == owner + ['%'] + ("2F" + repo);
    FirstFieldOfJoin(owner, '%', "2F" + repo);
  }

  // The endpoints: the project URL followed by a fixed suffix, with the hash
  // or branch name appended as it is given.

  function BranchesUrl(p: Project): string { ProjectUrl(p) + "/repository/branches" }
  function CommitsUrl(p: Project): string { ProjectUrl(p) + "/repository/commits" }
  function CommitUrl(p: Project, hash: string): string { ProjectUrl(p) + "/repository/commits/" + hash }
  function RefsUrl(p: Project, hash: string): string { ProjectUrl(p) + "/repository/commits/" + hash + "/refs" }
  function ContributorsUrl(p: Project): string { ProjectUrl(p) + "/repository/contributors" }
  function CommitsByBranchUrl(p: Project, branch: string): string {
    ProjectUrl(p) + "/repository/commits?ref_name=" + branch
  }

  /** The hash is appended verbatim: the commit URL gives it back, and the
      refs URL is the commit URL followed by "/refs". */
  lemma CommitUrlCarriesHash(p: Project, hash: string)
    ensures var u := CommitUrl(p, hash);
      && u[..|u| - |hash|] == CommitsUrl(p) + "/"
      && u[|u| - |hash|..] == hash
      && RefsUrl(p, hash) == u + "/refs"
  {
  }

  /** The branch name is appended verbatim, so different branches are asked
      for at different URLs. */
  lemma CommitsByBranchUrlInjective(p: Project, branch1: string, branch2: string)
    requires CommitsByBranchUrl(p, branch1) == CommitsByBranchUrl(p, branch2)
    ensures branch1 == branch2
  {
    var n := |ProjectUrl(p) + "/repository/commits?ref_name="|;
    assert branch1 == CommitsByBranchUrl(p, branch1)[n..];
    assert branch2 == CommitsByBranchUrl(p, branch2)[n..];
  }

  /** `path_with_namespace.split("/")[0]`: the namespace a project lives in. */
  function Owner(pathWithNamespace: string): (owner: string)
    ensures owner <= pathWithNamespace && '/' !in owner
    ensures |owner| == |pathWithNamespace| || pathWithNamespace[|owner|] == '/'
  {
    FirstField(pathWithNamespace, '/')
  }

  /** The owner of "group/project" is "group". */
  lemma OwnerOfNamespacedPath(group: string, project: string)
    requires '/' !in group
    ensures Owner(group + "/" + project) == group
  {
    FirstFieldOfJoin(group, '/', project);
    assert group + "/" + project == group + ['/'] + project;
  }

  /** `_timestamp(date)`: the conversion sees the date without its last five
      characters (a suffix such as ".000Z"). */
  function Timestamp(api: Api, date: string): int {
    api.parseDate(DropLast(date, 5))
  }

  /** Two dates that differ only in their last five characters give the same
      timestamp. */
  lemma TimestampIgnoresSuffix(api: Api, stem: string, suffix1: string, suffix2: string)
    requires |suffix1| == 5 && |suffix2| == 5
    ensures Timestamp(api, stem + suffix1) == Timestamp(api, stem + suffix2)
  {
    assert DropLast(stem + suffix1, 5) == stem;
    assert DropLast(stem + suffix2, 5) == stem;
  }

  /** The record both senders build for one commit of a commit listing:
      `{"hash": id, "author": committer_name, "message": message,
      "date": _timestamp(created_at)}`. */
  function Summary(api: Api, c: CommitInfo): CommitSummary {
    CommitSummary(c.id, c.committerName, c.message, Timestamp(api, c.createdAt))
  }
}
