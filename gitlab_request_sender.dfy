/** `RequestSenderGitLab` of the heat-map package: each method fetches one
    GitLab endpoint of the project and reshapes the JSON into the normalised
    records. The branch listing and the commits of a branch check the status
    code; the other methods read the body whatever the status. */
module GitLabSender {
  import opened Common
  import opened GitLabApi

  /** The `base_url` the constructor uses when none is given. */
  const DefaultBaseUrl: string := "https://gitlab.com/api/v4/projects/"

  /** `RequestSenderGitLab(owner, repo)` built without a `base_url`: every
      endpoint then starts at GitLab's public v4 projects API. */
  function DefaultProject(owner: string, repo: string): (p: Project)
    ensures p.owner == owner && p.repo == repo
    ensures ProjectUrl(p) == "https://gitlab.com/api/v4/projects/" + owner + "%2F" + repo
  {
    Project(DefaultBaseUrl, owner, repo)
  }

  /** `get_repo`: id, name and web URL copied, the creation date converted,
      the owner taken from the namespace. */
  function GetRepo(p: Project, api: Api): (r: Repo<int>)
    ensures var info := api.project(ProjectUrl(p)).json;
      && r.id == info.id
      && r.repoName == info.name
      && r.url == info.webUrl
      && r.creationDate == Timestamp(api, info.createdAt)
      && r.owner <= info.pathWithNamespace
      && '/' !in r.owner
      && (|r.owner| == |info.pathWithNamespace| || info.pathWithNamespace[|r.owner|] == '/')
  {
    var info := api.project(ProjectUrl(p)).json;
    Repo(info.id, info.name, Timestamp(api, info.createdAt), Owner(info.pathWithNamespace), info.webUrl)
  }

  /** For a project at "group/name", `get_repo` reports "group" as the owner.
      `GetRepo`'s contract characterises the owner as a prefix; this lemma is
      the concrete reading for a namespaced project, so that a caller of
      `get_repo` need not reason about `Owner` at all. */
  lemma GetRepoOwnerIsGroup(p: Project, api: Api, group: string, name: string)
    requires api.project(ProjectUrl(p)).json.pathWithNamespace == group + "/" + name
    requires '/' !in group
    ensures GetRepo(p, api).owner == group
  {
    OwnerOfNamespacedPath(group, name);
  }

  /** `get_branches`: None unless the status is 200, otherwise one `{"name"}`
      per listed branch, in order. */
  function GetBranches(p: Project, api: Api): (r: Option<seq<Branch>>)
    ensures var response := api.branches(BranchesUrl(p));
      && (r.None? <==> response.statusCode != 200)
      && (r.Some? ==> |r.value| == |response.json|)
      && (r.Some? ==> forall i :: 0 <= i < |response.json| ==> r.value[i].name == response.json[i].name)
  {
    var response := api.branches(BranchesUrl(p));
    if response.statusCode != 200 then None
    else Some(seq(|response.json|, i requires 0 <= i < |response.json| => Branch(response.json[i].name)))
  }

  /** `_get_branch_for_commit`: the name of the first ref that contains the
      commit; an empty refs listing raises IndexError at `branch_info[0]`. */
  function BranchForCommit(p: Project, api: Api, hash: string): (r: Result<string>)
    ensures var refs := api.refs(RefsUrl(p, hash)).json;
      && (r.Err? <==> refs == [])
      && (r.Err? ==> r.error == IndexError)
      && (r.Ok? ==> r.value == refs[0].name)
  {
    var refs := api.refs(RefsUrl(p, hash)).json;
    if |refs| == 0 then Err(IndexError) else Ok(refs[0].name)
  }

  /** The list comprehension of `get_commits`, one commit after the other:
      the first commit whose refs listing is empty aborts it. */
  function CommitRecords(p: Project, api: Api, items: seq<CommitInfo>): (r: Result<seq<Commit<string>>>)
    ensures r.Ok? <==> forall i :: 0 <= i < |items| ==> BranchForCommit(p, api, items[i].id).Ok?
    ensures r.Err? ==> r.error == IndexError
    ensures r.Ok? ==> |r.value| == |items|
    ensures r.Ok? ==> forall i :: 0 <= i < |items| ==>
      && r.value[i].hash == items[i].id
      && r.value[i].author == items[i].committerName
      && r.value[i].message == items[i].message
      && r.value[i].date == Timestamp(api, items[i].createdAt)
      && r.value[i].branch == BranchForCommit(p, api, items[i].id).value
    decreases |items|
  {
    if items == [] then Ok([])
    else
      var c := items[0];
      match BranchForCommit(p, api, c.id)
      case Err(e) => Err(e)
      case Ok(branch) =>
        match CommitRecords(p, api, items[1..])
        case Err(e) => Err(e)
        case Ok(rest) =>
          Ok([Commit(c.id, c.committerName, c.message, Timestamp(api, c.createdAt), branch)] + rest)
  }

  /** `get_commits`: one record per listed commit, with the branch found for
      its id; no status check. */
  function GetCommits(p: Project, api: Api): (r: Result<seq<Commit<string>>>)
    ensures var items := api.commits(CommitsUrl(p)).json;
      && (r.Ok? <==> forall i :: 0 <= i < |items| ==> BranchForCommit(p, api, items[i].id).Ok?)
      && (r.Ok? ==> |r.value| == |items|)
      && (r.Err? ==> r.error == IndexError)
      && (r.Ok? ==> forall i :: 0 <= i < |items| ==>
        && r.value[i].hash == items[i].id
        && r.value[i].author == items[i].committerName
        && r.value[i].message == items[i].message
        && r.value[i].date == Timestamp(api, items[i].createdAt)
        && r.value[i].branch == BranchForCommit(p, api, items[i].id).value)
  {
    CommitRecords(p, api, api.commits(CommitsUrl(p)).json)
  }

  /** `get_contributors`: one record per contributor; `url` is always the
      string "None"; no status check. */
  function GetContributors(p: Project, api: Api): (r: seq<Contributor>)
    ensures var items := api.contributors(ContributorsUrl(p)).json;
      && |r| == |items|
      && forall i :: 0 <= i < |items| ==>
        && r[i].name == items[i].name
        && r[i].numberOfCommits == items[i].commits
        && r[i].email == items[i].email
        && r[i].url == "None"
  {
    var items := api.contributors(ContributorsUrl(p)).json;
    seq(|items|, i requires 0 <= i < |items| => Contributor(items[i].name, items[i].commits, items[i].email, "None"))
  }

  /** `get_commit_by_hash`: a hash that is not a string fails the URL
      concatenation with TypeError; otherwise the commit's fields, with the
      branch looked up for the hash that was asked for. */
  function GetCommitByHash(p: Project, api: Api, hash: Json): (r: Result<Commit<string>>)
    ensures !hash.JStr? ==> r == Err(TypeError)
    ensures hash.JStr? ==> (r.Ok? <==> BranchForCommit(p, api, hash.s).Ok?)
    ensures hash.JStr? && r.Err? ==> r.error == IndexError
    ensures hash.JStr? && r.Ok? ==> var info := api.commit(CommitUrl(p, hash.s)).json;
      && r.value.hash == info.id
      && r.value.author == info.authorName
      && r.value.message == info.message
      && r.value.date == Timestamp(api, info.committedDate)
      && r.value.branch == BranchForCommit(p, api, hash.s).value
  {
    if !hash.JStr? then Err(TypeError)
    else
      var info := api.commit(CommitUrl(p, hash.s)).json;
      match BranchForCommit(p, api, hash.s)
      case Err(e) => Err(e)
      case Ok(branch) => Ok(Commit(info.id, info.authorName, info.message, Timestamp(api, info.committedDate), branch))
  }

  /** `get_commits_by_branch`: a branch that is not a string fails the URL
      concatenation with TypeError; None unless the status is 200; otherwise
      a dict whose one key is the branch, holding one record per commit. */
  function GetCommitsByBranch(p: Project, api: Api, branch: Json): (r: Result<Option<map<string, seq<CommitSummary>>>>)
    ensures !branch.JStr? ==> r == Err(TypeError)
    ensures branch.JStr? ==> r.Ok?
    ensures branch.JStr? ==> var response := api.commits(CommitsByBranchUrl(p, branch.s));
      && (r.value.None? <==> response.statusCode != 200)
      && (r.value.Some? ==> r.value.value.Keys == {branch.s})
      && (r.value.Some? ==> |r.value.value[branch.s]| == |response.json|)
      && (r.value.Some? ==> forall i :: 0 <= i < |response.json| ==>
            r.value.value[branch.s][i] == Summary(api, response.json[i]))
  {
    if !branch.JStr? then Err(TypeError)
    else
      var response := api.commits(CommitsByBranchUrl(p, branch.s));
      if response.statusCode != 200 then Ok(None)
      else
        var commits := seq(|response.json|, i requires 0 <= i < |response.json| => Summary(api, response.json[i]));
        Ok(Some(map[branch.s := commits]))
  }
}
