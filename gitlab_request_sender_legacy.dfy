/** The older `RequestSenderGitLab` (top-level `request_sender` package):
    the same endpoints as the heat-map sender, but no status checks, the
    creation date passed through as the raw string, and commits without a
    branch. Its `base_url`, `owner` and `repo` come from a base class that is
    not part of this model. */
module GitLabSenderLegacy {
  import opened Common
  import opened GitLabApi

  /** `get_repo`: id, name and web URL copied, `created_at` passed through
      unchanged, the owner taken from the namespace. */
  function GetRepo(p: Project, api: Api): (r: Repo<string>)
    ensures var info := api.project(ProjectUrl(p)).json;
      && r.id == info.id
      && r.repoName == info.name
      && r.url == info.webUrl
      && r.creationDate == info.createdAt
      && r.owner <= info.pathWithNamespace
      && '/' !in r.owner
      && (|r.owner| == |info.pathWithNamespace| || info.pathWithNamespace[|r.owner|] == '/')
  {
    var info := api.project(ProjectUrl(p)).json;
    Repo(info.id, info.name, info.createdAt, Owner(info.pathWithNamespace), info.webUrl)
  }

  /** `get_branches`: one `{"name"}` per listed branch, in order, whatever
      the status code. */
  function GetBranches(p: Project, api: Api): (r: seq<Branch>)
    ensures var items := api.branches(BranchesUrl(p)).json;
      && |r| == |items|
      && forall i :: 0 <= i < |items| ==> r[i].name == items[i].name
  {
    var items := api.branches(BranchesUrl(p)).json;
    seq(|items|, i requires 0 <= i < |items| => Branch(items[i].name))
  }

  /** `get_commits`: one four-field record per listed commit, in order, with
      no branch; no status check. */
  function GetCommits(p: Project, api: Api): (r: seq<CommitSummary>)
    ensures var items := api.commits(CommitsUrl(p)).json;
      && |r| == |items|
      && forall i :: 0 <= i < |items| ==>
        && r[i].hash == items[i].id
        && r[i].author == items[i].committerName
        && r[i].message == items[i].message
        && r[i].date == Timestamp(api, items[i].createdAt)
  {
    var items := api.commits(CommitsUrl(p)).json;
    seq(|items|, i requires 0 <= i < |items| => Summary(api, items[i]))
  }

  /** `get_commits_by_branch`: a branch that is not a string fails the URL
      concatenation with TypeError; otherwise a dict whose only key is the
      branch, holding the branch's commits in order, whatever the status. */
  function GetCommitsByBranch(p: Project, api: Api, branch: Json): (r: Result<map<string, seq<CommitSummary>>>)
    ensures !branch.JStr? ==> r == Err(TypeError)
    ensures branch.JStr? ==> var items := api.commits(CommitsByBranchUrl(p, branch.s)).json;
      && r.Ok?
      && r.value.Keys == {branch.s}
      && r.value[branch.s] == GetCommits(p, api.(commits := _ => Response(200, items)))
  {
    if !branch.JStr? then Err(TypeError)
    else
      var items := api.commits(CommitsByBranchUrl(p, branch.s)).json;
      Ok(map[branch.s := seq(|items|, i requires 0 <= i < |items| => Summary(api, items[i]))])
  }

  /** Neither listing looks at the status code: two responses with the same
      body give the same records. */
  lemma ListingsIgnoreStatus(p: Project, api: Api, status: int)
    ensures GetBranches(p, api) ==
      GetBranches(p, api.(branches := url => Response(status, api.branches(url).json)))
    ensures GetCommits(p, api) ==
      GetCommits(p, api.(commits := url => Response(status, api.commits(url).json)))
  {
  }
}
