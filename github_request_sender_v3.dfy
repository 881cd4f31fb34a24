/** `GithubRequestSenderV3`: maps GitHub REST responses to the normalised
    records, and attributes commits to branches by combining the commits
    listed per branch with the head commits of the repository's pull
    requests. `_request` (in a base class that is not part of this model) is
    an input: one function per endpoint from the endpoint path to the parsed
    body, or None. */
module GitHubSender {
  import opened Common
  import opened SetDicts

  /** The `strptime` format every GitHub date is converted with. */
  const GitHubTimeFormat: string := "%Y-%m-%dT%H:%M:%SZ"

  // The fields of the GitHub responses that the sender reads; the commit's
  // `commit.author.name`, `commit.message` and `commit.author.date` are
  // flattened, and so are a pull request's `head.label` and `head.sha`.
  datatype GhRepo = GhRepo(id: int, name: string, createdAt: string, ownerLogin: string, url: string)
  datatype GhBranch = GhBranch(name: string)
  datatype GhCommit = GhCommit(sha: string, authorName: string, message: string, authorDate: string)
  datatype GhContributor = GhContributor(login: string, contributions: int, url: string)
  datatype GhPull = GhPull(headLabel: string, headSha: string)

  /** `_request(endpoint)` per kind of endpoint (None when the base class
      gives nothing back), and `format_date_to_int`. */
  datatype Api = Api(
    repo: string -> Option<GhRepo>,
    branches: string -> Option<seq<GhBranch>>,
    commits: string -> Option<seq<GhCommit>>,
    commit: string -> Option<GhCommit>,
    contributors: string -> Option<seq<GhContributor>>,
    pulls: string -> Option<seq<GhPull>>,
    formatDateToInt: (string, string) -> int)

  /** The `owner` and `repo` a sender is built with. */
  datatype Sender = Sender(owner: string, repo: string)

  /** `repos_api_url` */
  function ReposApiUrl(s: Sender): string { "/repos/" + s.owner + "/" + s.repo }

  const BranchesEndpoint: string := "/branches"
  const ContributorsEndpoint: string := "/contributors"
  const CommitsEndpoint: string := "/commits"
  const PullsEndpoint: string := "/pulls?state=all"
  function CommitsOfBranchEndpoint(branch: string): string { "/commits?sha=" + branch }
  function CommitEndpoint(hash: string): string { "/commits/" + hash }

  // ---------------------------------------------------------------------------
  // Record mappers

  /** `get_repo`: None for no response; otherwise id, name and url copied,
      the creation date converted with the GitHub format, the owner's login. */
  function GetRepo(s: Sender, api: Api): (r: Option<Repo<int>>)
    ensures var response := api.repo(ReposApiUrl(s));
      && (r.None? <==> response.None?)
      && (r.Some? ==>
            && r.value.id == response.value.id
            && r.value.repoName == response.value.name
            && r.value.creationDate == api.formatDateToInt(response.value.createdAt, GitHubTimeFormat)
            && r.value.owner == response.value.ownerLogin
            && r.value.url == response.value.url)
  {
    match api.repo(ReposApiUrl(s))
    case None => None
    case Some(info) =>
      Some(Repo(info.id, info.name, api.formatDateToInt(info.createdAt, GitHubTimeFormat), info.ownerLogin, info.url))
  }

  /** `get_branches`: one `{"name"}` per listed branch, in order; `map` over
      no response raises TypeError. */
  function GetBranches(api: Api): (r: Result<seq<Branch>>)
    ensures var response := api.branches(BranchesEndpoint);
      && (r.Err? <==> response.None?)
      && (r.Err? ==> r.error == TypeError)
      && (r.Ok? ==> |r.value| == |response.value|)
      && (r.Ok? ==> forall i :: 0 <= i < |r.value| ==> r.value[i].name == response.value[i].name)
  {
    match api.branches(BranchesEndpoint)
    case None => Err(TypeError)
    case Some(items) => Ok(seq(|items|, i requires 0 <= i < |items| => Branch(items[i].name)))
  }

  /** The record of one listed commit. */
  function Summary(api: Api, c: GhCommit): CommitSummary {
    CommitSummary(c.sha, c.authorName, c.message, api.formatDateToInt(c.authorDate, GitHubTimeFormat))
  }

  /** `get_commits_by_branch` for a name that passed the assertion: None for
      no response, otherwise one record per listed commit, in order. */
  function CommitsOnBranch(api: Api, branch: string): (r: Option<seq<CommitSummary>>)
    ensures var response := api.commits(CommitsOfBranchEndpoint(branch));
      && (r.None? <==> response.None?)
      && (r.Some? ==> |r.value| == |response.value|)
      && (r.Some? ==> forall i :: 0 <= i < |r.value| ==>
            && r.value[i].hash == response.value[i].sha
            && r.value[i].author == response.value[i].authorName
            && r.value[i].message == response.value[i].message
            && r.value[i].date == api.formatDateToInt(response.value[i].authorDate, GitHubTimeFormat))
  {
    match api.commits(CommitsOfBranchEndpoint(branch))
    case None => None
    case Some(items) => Some(seq(|items|, i requires 0 <= i < |items| => Summary(api, items[i])))
  }

  /** `get_commits_by_branch`: a branch name that is not a string fails the
      assertion. */
  function GetCommitsByBranch(api: Api, branch: Json): (r: Result<Option<seq<CommitSummary>>>)
    ensures !branch.JStr? <==> r.Err?
    ensures r.Err? ==> r.error == AssertionError
    ensures branch.JStr? ==> r == Ok(CommitsOnBranch(api, branch.s))
  {
    if !branch.JStr? then Err(AssertionError) else Ok(CommitsOnBranch(api, branch.s))
  }

  /** `get_contributors`: None for no response; otherwise one record per
      contributor, with the login as both name and email. */
  function GetContributors(api: Api): (r: Option<seq<Contributor>>)
    ensures var response := api.contributors(ContributorsEndpoint);
      && (r.None? <==> response.None?)
      && (r.Some? ==> |r.value| == |response.value|)
      && (r.Some? ==> forall i :: 0 <= i < |r.value| ==>
            && r.value[i].name == response.value[i].login
            && r.value[i].email == response.value[i].login
            && r.value[i].numberOfCommits == response.value[i].contributions
            && r.value[i].url == response.value[i].url)
  {
    match api.contributors(ContributorsEndpoint)
    case None => None
    case Some(items) =>
      Some(seq(|items|, i requires 0 <= i < |items| =>
        Contributor(items[i].login, items[i].contributions, items[i].login, items[i].url)))
  }

  // ---------------------------------------------------------------------------
  // Which branches hold a commit

  /** The `branch` of a GitHub commit record: the branches holding it, or
      the string "unknown". */
  datatype BranchMatch = Matched(branches: seq<string>) | Unknown

  /** `x` occurs in `keys` before some occurrence of `y`. */
  predicate Before(keys: seq<string>, x: string, y: string) {
    exists p, q :: 0 <= p < q < |keys| && keys[p] == x && keys[q] == y
  }

  /** Any two elements of `r` occur in `keys` in the same relative order. */
  predicate InOrderOf(r: seq<string>, keys: seq<string>) {
    forall i, j :: 0 <= i < j < |r| ==> Before(keys, r[i], r[j])
  }

  lemma InOrderOfTail(r: seq<string>, keys: seq<string>)
    requires |keys| > 0 && InOrderOf(r, keys[1..])
    ensures InOrderOf(r, keys)
  {
    forall i, j | 0 <= i < j < |r| ensures Before(keys, r[i], r[j]) {
      var p, q :| 0 <= p < q < |keys[1..]| && keys[1..][p] == r[i] && keys[1..][q] == r[j];
      assert keys[p + 1] == r[i] && keys[q + 1] == r[j];
    }
  }

  lemma InOrderOfCons(r: seq<string>, keys: seq<string>)
    requires |keys| > 0 && InOrderOf(r, keys[1..])
    requires forall k :: k in r ==> k in keys[1..]
    ensures InOrderOf([keys[0]] + r, keys)
  {
    InOrderOfTail(r, keys);
    var s := [keys[0]] + r;
    forall i, j | 0 <= i < j < |s| ensures Before(keys, s[i], s[j]) {
      if i == 0 {
        assert s[j] == r[j - 1] && r[j - 1] in r;
        var q :| 0 <= q < |keys[1..]| && keys[1..][q] == s[j];
        assert keys[0] == s[0] && keys[q + 1] == s[j];
      } else {
        assert s[i] == r[i - 1] && s[j] == r[j - 1];
      }
    }
  }

  /** The keys among `keys`, in their order, whose set holds `sha`. */
  function Matching(d: SetDict, keys: seq<string>, sha: string): (r: seq<string>)
    requires forall k :: k in keys ==> k in d.entries
    ensures forall k :: k in r <==> k in keys && sha in d.entries[k]
    ensures Distinct(keys) ==> Distinct(r)
    ensures InOrderOf(r, keys)
  {
    if keys == [] then []
    else
      var rest := Matching(d, keys[1..], sha);
      assert Distinct(keys) ==> Distinct(keys[1..]) && keys[0] !in rest by {
        if Distinct(keys) {
          forall k | k in keys[1..] ensures k != keys[0] {
            var j :| 0 <= j < |keys[1..]| && keys[1..][j] == k;
            assert keys[j + 1] == k;
          }
        }
      }
      assert Distinct(keys) && sha in d.entries[keys[0]] ==> Distinct([keys[0]] + rest) by {
        if Distinct(keys) && sha in d.entries[keys[0]] {
          var r := [keys[0]] + rest;
          forall i, j | 0 <= i < j < |r| ensures r[i] != r[j] {
            if i == 0 {
              assert r[j] == rest[j - 1] && rest[j - 1] in rest;
            } else {
              assert r[i] == rest[i - 1] && r[j] == rest[j - 1];
            }
          }
        }
      }
      assert InOrderOf(rest, keys) && InOrderOf([keys[0]] + rest, keys) by {
        InOrderOfTail(rest, keys);
        InOrderOfCons(rest, keys);
      }
      if sha in d.entries[keys[0]] then [keys[0]] + rest else rest
  }

  /** `match_branch_to_commit`: the branches whose SHA set holds `sha`, in
      the dict's order, each once; "unknown" exactly when none does. */
  function MatchBranchToCommit(d: SetDict, sha: string): (r: BranchMatch)
    requires Valid(d)
    ensures r.Unknown? <==> forall k :: k in d.entries ==> sha !in d.entries[k]
    ensures r.Matched? ==> Distinct(r.branches)
    ensures r.Matched? ==> forall k :: k in r.branches <==> k in d.entries && sha in d.entries[k]
    ensures r.Matched? ==> |r.branches| > 0
    ensures r.Matched? ==> InOrderOf(r.branches, d.order)
  {
    var matched := Matching(d, d.order, sha);
    assert |matched| > 0 <==> exists k :: k in d.entries && sha in d.entries[k] by {
      if |matched| > 0 {
        assert matched[0] in matched;
      }
    }
    if |matched| > 0 then Matched(matched) else Unknown
  }

  // ---------------------------------------------------------------------------
  // Branch names from pull-request labels

  /** `s.replace(pattern, replacement)`: every occurrence of `pattern`, scanning left
      to right without overlaps, replaced. */
  function ReplaceAll(s: string, pattern: string, replacement: string): string
    requires |pattern| > 0
    decreases |s|
  {
    if |s| < |pattern| then s
    else if s[..|pattern|] == pattern then replacement + ReplaceAll(s[|pattern|..], pattern, replacement)
    else [s[0]] + ReplaceAll(s[1..], pattern, replacement)
  }

  /** A string lacking the pattern's last character holds no occurrence and
      comes back unchanged. */
  lemma {:induction false} ReplaceAbsent(s: string, pattern: string, replacement: string)
    requires |pattern| > 0 && pattern[|pattern| - 1] !in s
    ensures ReplaceAll(s, pattern, replacement) == s
    decreases |s|
  {
    if |s| >= |pattern| {
      assert s[..|pattern|][|pattern| - 1] == s[|pattern| - 1];
      assert s[..|pattern|] != pattern;
      assert s[1..] + [] == s[1..];
      ReplaceAbsent(s[1..], pattern, replacement);
      assert [s[0]] + s[1..] == s;
    }
  }

  /** The branch name `_get_branches_from_pull_request` files a pull request
      under: its head label with `owner + ":"` removed wherever it occurs. */
  function Label(owner: string, pull: GhPull): string {
    ReplaceAll(pull.headLabel, owner + ":", "")
  }

  /** The head label of a pull request from the repository's owner is
      "owner:branch"; since a Git branch name holds no ':', stripping gives
      the branch back. */
  lemma LabelOfOwnBranch(owner: string, branch: string, sha: string)
    requires ':' !in branch
    ensures Label(owner, GhPull(owner + ":" + branch, sha)) == branch
  {
    var pattern := owner + ":";
    var headLabel := owner + ":" + branch;
    assert headLabel[..|pattern|] == pattern;
    assert headLabel[|pattern|..] == branch;
    ReplaceAbsent(branch, pattern, "");
  }

  /** The (branch, SHA) pair each pull request contributes. */
  function PullPairs(owner: string, pulls: seq<GhPull>): (pairs: seq<(string, string)>)
    ensures |pairs| == |pulls|
  {
    seq(|pulls|, i requires 0 <= i < |pulls| => (Label(owner, pulls[i]), pulls[i].headSha))
  }

  /** What `_get_branches_from_pull_request` returns. */
  function PullRequestBranches(owner: string, pulls: Option<seq<GhPull>>): Option<SetDict> {
    match pulls
    case None => None
    case Some(prs) => Some(Group(PullPairs(owner, prs)))
  }

  /** The pull-request dict files every pull request's head SHA under its
      stripped label, has exactly the stripped labels as keys, and holds
      nothing else. */
  lemma PullRequestBranchesMeaning(owner: string, prs: seq<GhPull>)
    ensures var d := PullRequestBranches(owner, Some(prs)).value;
      && Valid(d)
      && d.entries.Keys == (set i | 0 <= i < |prs| :: Label(owner, prs[i]))
      && (forall i :: 0 <= i < |prs| ==> prs[i].headSha in d.entries[Label(owner, prs[i])])
      && (forall k, v :: k in d.entries && v in d.entries[k] ==>
            exists i :: 0 <= i < |prs| && Label(owner, prs[i]) == k && prs[i].headSha == v)
  {
    var pairs := PullPairs(owner, prs);
    GroupMeaning(pairs);
    var d := Group(pairs);
    forall p ensures p in pairs <==> exists i :: 0 <= i < |prs| && p == (Label(owner, prs[i]), prs[i].headSha) {
      if p in pairs {
        var i :| 0 <= i < |pairs| && pairs[i] == p;
      }
      if exists i :: 0 <= i < |prs| && p == (Label(owner, prs[i]), prs[i].headSha) {
        var i :| 0 <= i < |prs| && p == (Label(owner, prs[i]), prs[i].headSha);
        assert pairs[i] == p;
      }
    }
    assert d.entries.Keys == (set i | 0 <= i < |prs| :: Label(owner, prs[i])) by {
      forall k ensures k in KeysOf(pairs) <==> k in (set i | 0 <= i < |prs| :: Label(owner, prs[i])) {
        if k in KeysOf(pairs) {
          var p :| p in pairs && p.0 == k;
        } else if k in (set i | 0 <= i < |prs| :: Label(owner, prs[i])) {
          var i :| 0 <= i < |prs| && Label(owner, prs[i]) == k;
          assert pairs[i] in pairs;
        }
      }
    }
    forall i | 0 <= i < |prs| ensures prs[i].headSha in d.entries[Label(owner, prs[i])] {
      assert pairs[i] in pairs;
    }
  }

  /** `_get_branches_from_pull_request`: None for no pull requests; otherwise
      each pull request's head SHA added under its stripped label. */
  method BranchesFromPullRequest(owner: string, pulls: Option<seq<GhPull>>) returns (r: Option<SetDict>)
    ensures r == PullRequestBranches(owner, pulls)
  {
    if pulls.None? {
      return None;
    }
    var prs := pulls.value;
    var branches := Empty;
    for i := 0 to |prs|
      invariant branches == Group(PullPairs(owner, prs[..i]))
    {
      assert PullPairs(owner, prs[..i + 1]) == PullPairs(owner, prs[..i]) + [(Label(owner, prs[i]), prs[i].headSha)];
      GroupSnoc(PullPairs(owner, prs[..i]), (Label(owner, prs[i]), prs[i].headSha));
      branches := SetDefaultAdd(branches, Label(owner, prs[i]), prs[i].headSha);
    }
    assert prs[..|prs|] == prs;
    return Some(branches);
  }

  // ---------------------------------------------------------------------------
  // Existing branches

  /** `_get_list_of_branches`: the names `get_branches` lists, in order. */
  function ListOfBranches(api: Api): (r: Result<seq<string>>)
    ensures r.Err? <==> GetBranches(api).Err?
    ensures r.Err? ==> r.error == GetBranches(api).error
    ensures r.Ok? ==> |r.value| == |GetBranches(api).value|
    ensures r.Ok? ==> forall i :: 0 <= i < |r.value| ==> r.value[i] == GetBranches(api).value[i].name
  {
    match GetBranches(api)
    case Err(e) => Err(e)
    case Ok(bs) => Ok(seq(|bs|, i requires 0 <= i < |bs| => bs[i].name))
  }

  /** Every branch's commits could be fetched. */
  predicate AllListed(api: Api, names: seq<string>) {
    forall i :: 0 <= i < |names| ==> CommitsOnBranch(api, names[i]).Some?
  }

  /** The (branch, SHA) pair of each commit of a branch. */
  function CommitPairs(branch: string, commits: seq<CommitSummary>): (pairs: seq<(string, string)>)
    ensures |pairs| == |commits|
  {
    seq(|commits|, j requires 0 <= j < |commits| => (branch, commits[j].hash))
  }

  /** The pairs of every commit of every branch, branch after branch. */
  function BranchPairs(api: Api, names: seq<string>): seq<(string, string)>
    requires AllListed(api, names)
  {
    if names == [] then []
    else
      var last := names[|names| - 1];
      BranchPairs(api, names[..|names| - 1]) + CommitPairs(last, CommitsOnBranch(api, last).value)
  }

  /** The SHAs of the commits listed for a branch. */
  function BranchShas(api: Api, branch: string): set<string>
    requires CommitsOnBranch(api, branch).Some?
  {
    set c | c in CommitsOnBranch(api, branch).value :: c.hash
  }

  /** What `_get_existing_commit_branch_map` returns: `list_of_branches[0]`
      raises IndexError on no branches; None when the first branch's commits
      cannot be fetched; TypeError when a later branch's cannot; otherwise
      the commits' SHAs grouped by branch. */
  function ExistingMap(api: Api, names: seq<string>): Result<Option<SetDict>> {
    if names == [] then Err(IndexError)
    else if CommitsOnBranch(api, names[0]).None? then Ok(None)
    else if !AllListed(api, names) then Err(TypeError)
    else Ok(Some(Group(BranchPairs(api, names))))
  }

  lemma {:induction false} BranchPairsMeaning(api: Api, names: seq<string>, p: (string, string))
    requires AllListed(api, names)
    ensures p in BranchPairs(api, names) <==> p.0 in names && p.1 in BranchShas(api, p.0)
  {
    if names != [] {
      var front := names[..|names| - 1];
      var last := names[|names| - 1];
      assert names == front + [last];
      assert AllListed(api, front) by {
        forall i | 0 <= i < |front| ensures CommitsOnBranch(api, front[i]).Some? {
          assert front[i] == names[i];
        }
      }
      BranchPairsMeaning(api, front, p);
      var cs := CommitsOnBranch(api, last).value;
      assert p in CommitPairs(last, cs) <==> p.0 == last && p.1 in BranchShas(api, last) by {
        if p in CommitPairs(last, cs) {
          var j :| 0 <= j < |cs| && CommitPairs(last, cs)[j] == p;
          assert cs[j] in cs;
        }
        if p.0 == last && p.1 in BranchShas(api, last) {
          var c :| c in cs && c.hash == p.1;
          var j :| 0 <= j < |cs| && cs[j] == c;
          assert CommitPairs(last, cs)[j] == p;
        }
      }
    }
  }

  /** The existing map has a key for exactly the listed branches with at
      least one commit, holding exactly the SHAs of that branch's commits. */
  lemma ExistingMapMeaning(api: Api, names: seq<string>)
    requires ExistingMap(api, names).Ok? && ExistingMap(api, names).value.Some?
    ensures var d := ExistingMap(api, names).value.value;
      && Valid(d)
      && AllListed(api, names)
      && (forall b :: b in d.entries <==> b in names && CommitsOnBranch(api, b).value != [])
      && (forall b :: b in d.entries ==> d.entries[b] == BranchShas(api, b))
  {
    var pairs := BranchPairs(api, names);
    var d := Group(pairs);
    GroupMeaning(pairs);
    forall b ensures b in d.entries <==> b in names && CommitsOnBranch(api, b).value != [] {
      if b in d.entries {
        var p :| p in pairs && p.0 == b;
        BranchPairsMeaning(api, names, p);
      }
      if b in names && CommitsOnBranch(api, b).value != [] {
        var c := CommitsOnBranch(api, b).value[0];
        BranchPairsMeaning(api, names, (b, c.hash));
        assert (b, c.hash) in pairs;
      }
    }
    forall b | b in d.entries ensures d.entries[b] == BranchShas(api, b) {
      forall v ensures v in ValuesOf(pairs, b) <==> v in BranchShas(api, b) {
        BranchPairsMeaning(api, names, (b, v));
        if v in ValuesOf(pairs, b) {
          var p :| p in pairs && p.0 == b && p.1 == v;
          BranchPairsMeaning(api, names, p);
        }
      }
    }
  }

  lemma ExistingStep(api: Api, names: seq<string>, i: nat)
    requires i < |names|
    requires AllListed(api, names[..i]) && CommitsOnBranch(api, names[i]).Some?
    ensures AllListed(api, names[..i + 1])
    ensures BranchPairs(api, names[..i + 1])
      == BranchPairs(api, names[..i]) + CommitPairs(names[i], CommitsOnBranch(api, names[i]).value)
  {
    assert names[..i + 1] == names[..i] + [names[i]];
    assert names[..i + 1][..i] == names[..i];
  }

  lemma CommitPairsSnoc(branch: string, commits: seq<CommitSummary>, j: nat)
    requires j < |commits|
    ensures CommitPairs(branch, commits[..j + 1]) == CommitPairs(branch, commits[..j]) + [(branch, commits[j].hash)]
  {
  }

  /** The inner loop of `_get_existing_commit_branch_map`: every commit's
      SHA added under the branch, in order. */
  method AddBranchCommits(d: SetDict, ghost done: seq<(string, string)>, branch: string, commits: seq<CommitSummary>)
    returns (r: SetDict)
    requires d == Group(done)
    ensures r == Group(done + CommitPairs(branch, commits))
  {
    r := d;
    assert done + CommitPairs(branch, commits[..0]) == done;
    for j := 0 to |commits|
      invariant r == Group(done + CommitPairs(branch, commits[..j]))
    {
      CommitPairsSnoc(branch, commits, j);
      assert done + CommitPairs(branch, commits[..j + 1])
        == (done + CommitPairs(branch, commits[..j])) + [(branch, commits[j].hash)];
      GroupSnoc(done + CommitPairs(branch, commits[..j]), (branch, commits[j].hash));
      r := SetDefaultAdd(r, branch, commits[j].hash);
    }
    assert commits[..|commits|] == commits;
  }

  /** `_get_existing_commit_branch_map(list_of_branches)`: for each branch in
      turn, for each of its commits, add the SHA under the branch. */
  method ExistingCommitBranchMap(api: Api, names: seq<string>) returns (r: Result<Option<SetDict>>)
    ensures r == ExistingMap(api, names)
  {
    if |names| == 0 {
      return Err(IndexError);
    }
    if CommitsOnBranch(api, names[0]).None? {
      return Ok(None);
    }
    var result := Empty;
    for i := 0 to |names|
      invariant AllListed(api, names[..i])
      invariant result == Group(BranchPairs(api, names[..i]))
    {
      var commits := CommitsOnBranch(api, names[i]);
      if commits.None? {
        return Err(TypeError);
      }
      ExistingStep(api, names, i);
      result := AddBranchCommits(result, BranchPairs(api, names[..i]), names[i], commits.value);
    }
    assert names[..|names|] == names;
    return Ok(Some(result));
  }

  /** `_get_dict_of_commits`: None for no commits; otherwise every commit's
      hash mapped to "master". */
  method DictOfCommits(allCommits: Option<seq<Commit<BranchMatch>>>) returns (r: Option<map<string, string>>)
    ensures r.None? <==> allCommits.None?
    ensures r.Some? ==> r.value.Keys == (set c | c in allCommits.value :: c.hash)
    ensures r.Some? ==> forall h :: h in r.value ==> r.value[h] == "master"
  {
    if allCommits.None? {
      return None;
    }
    var commits := allCommits.value;
    var dict: map<string, string> := map[];
    for i := 0 to |commits|
      invariant dict.Keys == (set c | c in commits[..i] :: c.hash)
      invariant forall h :: h in dict ==> dict[h] == "master"
    {
      assert forall c :: c in commits[..i + 1] <==> c in commits[..i] || c == commits[i];
      dict := dict[commits[i].hash := "master"];
    }
    assert commits[..|commits|] == commits;
    return Some(dict);
  }

  // ---------------------------------------------------------------------------
  // The complete map

  /** The merge step of `_get_complete_commit_branch_map`: with no existing
      map, `existing_branches.values()` raises AttributeError as soon as a
      pull-request SHA is reached, and the None comes back when there is
      none. */
  function MergeSpec(existing: Option<SetDict>, prs: SetDict): Result<Option<SetDict>> {
    match existing
    case None => if Claimed(prs) == {} then Ok(None) else Err(AttributeError)
    case Some(e) => Ok(Some(Merge(e, prs)))
  }

  /** `for value in existing_branches.values(): if item in value: value.remove(item)` */
  method RemoveFromEach(d: SetDict, item: string) returns (r: SetDict)
    requires Valid(d)
    ensures r == RemoveAll(d, {item})
  {
    r := d;
    RemovedFromNone(d, item);
    for i := 0 to |d.order|
      invariant r == RemovedFromFirst(d, item, i)
    {
      var k := d.order[i];
      RemovedFromNext(d, item, i);
      if item in r.entries[k] {
        r := SetDict(r.order, r.entries[k := r.entries[k] - {item}]);
      }
    }
    RemovedFromAll(d, item);
  }

  /** `for item in shas: for value in existing_branches.values(): ...`:
      with no existing map, the first SHA raises AttributeError. */
  method RemoveShas(current: Option<SetDict>, shas: set<string>) returns (r: Result<Option<SetDict>>)
    requires current.Some? ==> Valid(current.value)
    ensures current.None? ==> r == if shas == {} then Ok(None) else Err(AttributeError)
    ensures current.Some? ==> r == Ok(Some(RemoveAll(current.value, shas)))
  {
    if current.None? {
      if shas != {} {
        return Err(AttributeError);
      }
      return Ok(None);
    }
    var d := current.value;
    var rest := shas;
    RemoveNothing(d);
    assert shas - rest == {};
    while rest != {}
      invariant rest <= shas
      invariant Valid(d)
      invariant d == RemoveAll(current.value, shas - rest)
      decreases rest
    {
      var item :| item in rest;
      RemoveAllTwice(current.value, shas - rest, {item});
      assert (shas - rest) + {item} == shas - (rest - {item});
      d := RemoveFromEach(d, item);
      rest := rest - {item};
    }
    assert shas - rest == shas;
    return Ok(Some(d));
  }

  /** The first loop over the pull-request dict: every SHA it holds removed
      from every existing branch. */
  method RemoveClaimed(existing: Option<SetDict>, prs: SetDict) returns (r: Result<Option<SetDict>>)
    requires Valid(prs)
    requires existing.Some? ==> Valid(existing.value)
    ensures existing.None? ==> r == if Claimed(prs) == {} then Ok(None) else Err(AttributeError)
    ensures existing.Some? ==> r == Ok(Some(RemoveAll(existing.value, Claimed(prs))))
  {
    var current := existing;
    assert prs.order[..0] == [];
    if existing.Some? {
      RemoveNothing(existing.value);
    }
    for i := 0 to |prs.order|
      invariant current.None? <==> existing.None?
      invariant existing.None? ==> ClaimedBy(prs, prs.order[..i]) == {}
      invariant existing.Some? ==> current.value == RemoveAll(existing.value, ClaimedBy(prs, prs.order[..i]))
    {
      var key := prs.order[i];
      assert prs.order[..i + 1][..i] == prs.order[..i];
      assert ClaimedBy(prs, prs.order[..i + 1]) == ClaimedBy(prs, prs.order[..i]) + prs.entries[key];
      var step := RemoveShas(current, prs.entries[key]);
      if step.Err? {
        var item :| item in prs.entries[key];
        ClaimedMeaning(prs, item);
        return step;
      }
      if existing.Some? {
        RemoveAllTwice(existing.value, ClaimedBy(prs, prs.order[..i]), prs.entries[key]);
      }
      current := step.value;
    }
    assert prs.order[..|prs.order|] == prs.order;
    assert ClaimedBy(prs, prs.order) == Claimed(prs);
    return Ok(current);
  }

  /** `for item in shas: existing_branches.setdefault(key, set()).add(item)` */
  method AddShas(d: SetDict, key: string, shas: set<string>) returns (r: SetDict)
    ensures r == AddSet(d, key, shas)
  {
    r := d;
    var rest := shas;
    assert shas - rest == {};
    while rest != {}
      invariant rest <= shas
      invariant r == AddSet(d, key, shas - rest)
      decreases rest
    {
      var item :| item in rest;
      AddSetTwice(d, key, shas - rest, {item});
      assert (shas - rest) + {item} == shas - (rest - {item});
      r := SetDefaultAdd(r, key, item);
      rest := rest - {item};
    }
    assert shas - rest == shas;
  }

  /** The second loop over the pull-request dict: every SHA it holds added
      under its pull-request branch. */
  method AddClaimed(d: SetDict, prs: SetDict) returns (r: SetDict)
    ensures r == AddGroups(d, prs, prs.order)
  {
    r := d;
    assert prs.order[..0] == [];
    for i := 0 to |prs.order|
      invariant r == AddGroups(d, prs, prs.order[..i])
    {
      var key := prs.order[i];
      assert prs.order[..i + 1][..i] == prs.order[..i];
      r := AddShas(r, key, Get(prs, key));
    }
    assert prs.order[..|prs.order|] == prs.order;
  }

  /** The two loops of `_get_complete_commit_branch_map` over the
      pull-request dict: first every pull-request SHA is removed from every
      existing branch, then added under its pull-request branch. */
  method MergeIntoExisting(existing: Option<SetDict>, prs: SetDict) returns (r: Result<Option<SetDict>>)
    requires Valid(prs)
    requires existing.Some? ==> Valid(existing.value)
    ensures r == MergeSpec(existing, prs)
  {
    var cleaned := RemoveClaimed(existing, prs);
    if cleaned.Err? || cleaned.value.None? {
      return cleaned;
    }
    var merged := AddClaimed(cleaned.value.value, prs);
    return Ok(Some(merged));
  }

  /** What `_get_complete_commit_branch_map` returns: the existing map built
      from the branch list, merged with the pull-request map; no pull
      requests make the first loop raise TypeError. Whenever it returns a
      dict, the dict's order lists each key once. */
  function CompleteMap(s: Sender, api: Api): (r: Result<Option<SetDict>>)
    ensures r.Ok? && r.value.Some? ==> Valid(r.value.value)
  {
    match ListOfBranches(api)
    case Err(e) => Err(e)
    case Ok(names) =>
      match ExistingMap(api, names)
      case Err(e) => Err(e)
      case Ok(existing) =>
        match PullRequestBranches(s.owner, api.pulls(PullsEndpoint))
        case None => Err(TypeError)
        case Some(prs) =>
          PullRequestBranchesMeaning(s.owner, api.pulls(PullsEndpoint).value);
          if existing.Some? then
            ExistingMapMeaning(api, names);
            MergeMeaning(existing.value, prs);
            MergeSpec(existing, prs)
          else MergeSpec(existing, prs)
  }

  /** A complete map that is a dict is the merge of an existing map and
      the pull-request dict. */
  lemma CompleteMapIsMerge(s: Sender, api: Api)
    requires CompleteMap(s, api).Ok? && CompleteMap(s, api).value.Some?
    ensures ListOfBranches(api).Ok? && api.pulls(PullsEndpoint).Some?
    ensures ExistingMap(api, ListOfBranches(api).value).Ok?
    ensures ExistingMap(api, ListOfBranches(api).value).value.Some?
    ensures CompleteMap(s, api).value.value == Merge(
      ExistingMap(api, ListOfBranches(api).value).value.value,
      PullRequestBranches(s.owner, api.pulls(PullsEndpoint)).value)
  {
  }

  /** The pull-request dict, read as facts about the pull requests: a key is
      a stripped label, no key's set is empty, and a SHA is under a key
      exactly when a pull request with that label has it as head. */
  lemma PullRequestDictFacts(owner: string, prs: seq<GhPull>, sha: string)
    ensures var p := PullRequestBranches(owner, Some(prs)).value;
      && (forall k :: k in p.entries <==> exists i :: 0 <= i < |prs| && Label(owner, prs[i]) == k)
      && (forall k :: k in p.entries ==> p.entries[k] != {})
      && (forall k :: k in p.entries && sha in p.entries[k] <==>
            exists i :: 0 <= i < |prs| && prs[i].headSha == sha && Label(owner, prs[i]) == k)
      && ((exists k :: k in p.entries && sha in p.entries[k]) <==> exists i :: 0 <= i < |prs| && prs[i].headSha == sha)
  {
    var p := PullRequestBranches(owner, Some(prs)).value;
    PullRequestBranchesMeaning(owner, prs);
    forall k ensures k in p.entries <==> exists i :: 0 <= i < |prs| && Label(owner, prs[i]) == k {
      if k in p.entries {
        var i :| 0 <= i < |prs| && Label(owner, prs[i]) == k;
      }
    }
    forall k | k in p.entries ensures p.entries[k] != {} {
      var i :| 0 <= i < |prs| && Label(owner, prs[i]) == k;
      assert prs[i].headSha in p.entries[k];
    }
    forall k ensures k in p.entries && sha in p.entries[k] <==>
      exists i :: 0 <= i < |prs| && prs[i].headSha == sha && Label(owner, prs[i]) == k
    {
      if exists i :: 0 <= i < |prs| && prs[i].headSha == sha && Label(owner, prs[i]) == k {
        var i :| 0 <= i < |prs| && prs[i].headSha == sha && Label(owner, prs[i]) == k;
        assert prs[i].headSha in p.entries[Label(owner, prs[i])];
      }
    }
    if exists i :: 0 <= i < |prs| && prs[i].headSha == sha {
      var i :| 0 <= i < |prs| && prs[i].headSha == sha;
      assert prs[i].headSha in p.entries[Label(owner, prs[i])];
    }
  }

  /** The keys of the complete map: the listed branches with commits plus
      the stripped pull-request labels. No existing key is dropped, even one
      whose set the pull requests emptied. */
  lemma CompleteMapKeys(s: Sender, api: Api)
    requires CompleteMap(s, api).Ok? && CompleteMap(s, api).value.Some?
    ensures ListOfBranches(api).Ok? && api.pulls(PullsEndpoint).Some?
    ensures var m := CompleteMap(s, api).value.value;
      var names := ListOfBranches(api).value;
      var prs := api.pulls(PullsEndpoint).value;
      forall k :: k in m.entries <==>
        || (k in names && CommitsOnBranch(api, k).Some? && CommitsOnBranch(api, k).value != [])
        || (exists i :: 0 <= i < |prs| && Label(s.owner, prs[i]) == k)
  {
    CompleteMapIsMerge(s, api);
    var names := ListOfBranches(api).value;
    var prs := api.pulls(PullsEndpoint).value;
    var e := ExistingMap(api, names).value.value;
    var p := PullRequestBranches(s.owner, Some(prs)).value;
    ExistingMapMeaning(api, names);
    PullRequestDictFacts(s.owner, prs, "");
    PullRequestBranchesMeaning(s.owner, prs);
    MergeKeys(e, p);
  }

  /** A SHA that heads some pull request ends up under exactly the stripped
      labels of the pull requests it heads, and under no existing branch. */
  lemma CompleteMapPullRequestSha(s: Sender, api: Api, sha: string)
    requires CompleteMap(s, api).Ok? && CompleteMap(s, api).value.Some?
    requires api.pulls(PullsEndpoint).Some?
    requires exists i :: 0 <= i < |api.pulls(PullsEndpoint).value| && api.pulls(PullsEndpoint).value[i].headSha == sha
    ensures var m := CompleteMap(s, api).value.value;
      var prs := api.pulls(PullsEndpoint).value;
      forall k :: k in m.entries ==>
        (sha in m.entries[k] <==> exists i :: 0 <= i < |prs| && prs[i].headSha == sha && Label(s.owner, prs[i]) == k)
  {
    CompleteMapIsMerge(s, api);
    var names := ListOfBranches(api).value;
    var prs := api.pulls(PullsEndpoint).value;
    var e := ExistingMap(api, names).value.value;
    var p := PullRequestBranches(s.owner, Some(prs)).value;
    ExistingMapMeaning(api, names);
    PullRequestBranchesMeaning(s.owner, prs);
    PullRequestDictFacts(s.owner, prs, sha);
    MergeAttribution(e, p, sha);
    var m := CompleteMap(s, api).value.value;
    assert exists k :: k in p.entries && sha in p.entries[k];
    forall k | k in m.entries ensures
      sha in m.entries[k] <==> exists i :: 0 <= i < |prs| && prs[i].headSha == sha && Label(s.owner, prs[i]) == k
    {
      assert sha in m.entries[k] <==> k in p.entries && sha in p.entries[k];
    }
  }

  /** A SHA that heads no pull request stays under exactly the listed
      branches whose commits include it. */
  lemma CompleteMapOtherSha(s: Sender, api: Api, sha: string)
    requires CompleteMap(s, api).Ok? && CompleteMap(s, api).value.Some?
    requires api.pulls(PullsEndpoint).Some?
    requires forall i :: 0 <= i < |api.pulls(PullsEndpoint).value| ==> api.pulls(PullsEndpoint).value[i].headSha != sha
    ensures ListOfBranches(api).Ok?
    ensures var m := CompleteMap(s, api).value.value;
      var names := ListOfBranches(api).value;
      forall k :: k in m.entries ==>
        (sha in m.entries[k] <==> k in names && CommitsOnBranch(api, k).Some? && sha in BranchShas(api, k))
  {
    CompleteMapIsMerge(s, api);
    var names := ListOfBranches(api).value;
    var prs := api.pulls(PullsEndpoint).value;
    var e := ExistingMap(api, names).value.value;
    var p := PullRequestBranches(s.owner, Some(prs)).value;
    ExistingMapMeaning(api, names);
    PullRequestBranchesMeaning(s.owner, prs);
    PullRequestDictFacts(s.owner, prs, sha);
    MergeAttribution(e, p, sha);
  }

  /** `_get_complete_commit_branch_map()` */
  method CompleteCommitBranchMap(s: Sender, api: Api) returns (r: Result<Option<SetDict>>)
    ensures r == CompleteMap(s, api)
  {
    var names := ListOfBranches(api);
    if names.Err? {
      return Err(names.error);
    }
    var existing := ExistingCommitBranchMap(api, names.value);
    if existing.Err? {
      return Err(existing.error);
    }
    var prs := BranchesFromPullRequest(s.owner, api.pulls(PullsEndpoint));
    if prs.None? {
      return Err(TypeError);
    }
    PullRequestBranchesMeaning(s.owner, api.pulls(PullsEndpoint).value);
    if existing.value.Some? {
      ExistingMapMeaning(api, names.value);
    }
    r := MergeIntoExisting(existing.value, prs.value);
  }

  /** `get_commit_by_hash`: a hash that is not a string fails the assertion;
      the complete map is computed (and may raise) before the response is
      looked at; None for no response; otherwise the commit's fields, with
      the branches of the complete map that hold the returned SHA. A map that
      is None makes the match raise TypeError. */
  function GetCommitByHash(s: Sender, api: Api, hash: Json): (r: Result<Option<Commit<BranchMatch>>>)
    ensures !hash.JStr? ==> r == Err(AssertionError)
    ensures hash.JStr? && CompleteMap(s, api).Err? ==> r == Err(CompleteMap(s, api).error)
    ensures hash.JStr? && CompleteMap(s, api).Ok? ==> var response := api.commit(CommitEndpoint(hash.s));
      && (r == Ok(None) <==> response.None?)
      && (r.Err? <==> response.Some? && CompleteMap(s, api).value.None?)
      && (r.Err? ==> r.error == TypeError)
    ensures r.Ok? && r.value.Some? ==>
      var c := r.value.value;
      var response := api.commit(CommitEndpoint(hash.s)).value;
      var m := CompleteMap(s, api).value.value;
      && c.hash == response.sha
      && c.author == response.authorName
      && c.message == response.message
      && c.date == api.formatDateToInt(response.authorDate, GitHubTimeFormat)
      && (c.branch.Unknown? <==> forall k :: k in m.entries ==> c.hash !in m.entries[k])
      && (c.branch.Matched? ==> forall k :: k in c.branch.branches <==> k in m.entries && c.hash in m.entries[k])
  {
    if !hash.JStr? then Err(AssertionError)
    else
      var response := api.commit(CommitEndpoint(hash.s));
      match CompleteMap(s, api)
      case Err(e) => Err(e)
      case Ok(branches) =>
        match response
        case None => Ok(None)
        case Some(info) =>
          match branches
          case None => Err(TypeError)
          case Some(m) =>
            var c := Summary(api, info);
            Ok(Some(Commit(c.hash, c.author, c.message, c.date, MatchBranchToCommit(m, info.sha))))
  }

  /** The record `get_commits` builds for one listed commit, its branch
      matched in the complete map. */
  function CommitRecord(api: Api, m: SetDict, c: GhCommit): Commit<BranchMatch>
    requires Valid(m)
  {
    var summary := Summary(api, c);
    Commit(summary.hash, summary.author, summary.message, summary.date, MatchBranchToCommit(m, c.sha))
  }

  /** `get_commits`, with the listed commits read straight from the fetched
      body: the complete map is computed (and may raise) before the response
      is looked at; None for no response; otherwise one record per listed
      commit, in order, with the branches of the complete map that hold its
      SHA. A map that is None makes the first match raise TypeError, so only
      an empty listing survives it. */
  function GetCommits(s: Sender, api: Api): (r: Result<Option<seq<Commit<BranchMatch>>>>)
    ensures CompleteMap(s, api).Err? ==> r == Err(CompleteMap(s, api).error)
    ensures CompleteMap(s, api).Ok? ==> var response := api.commits(CommitsEndpoint);
      && (r == Ok(None) <==> response.None?)
      && (r.Err? <==> response.Some? && response.value != [] && CompleteMap(s, api).value.None?)
      && (r.Err? ==> r.error == TypeError)
    ensures r.Ok? && r.value.Some? ==>
      var cs := r.value.value;
      var response := api.commits(CommitsEndpoint).value;
      var m := CompleteMap(s, api).value;
      && |cs| == |response|
      && forall i :: 0 <= i < |cs| ==>
        && m.Some?
        && cs[i].hash == response[i].sha
        && cs[i].author == response[i].authorName
        && cs[i].message == response[i].message
        && cs[i].date == api.formatDateToInt(response[i].authorDate, GitHubTimeFormat)
        && (cs[i].branch.Unknown? <==> forall k :: k in m.value.entries ==> cs[i].hash !in m.value.entries[k])
        && (cs[i].branch.Matched? ==>
              forall k :: k in cs[i].branch.branches <==> k in m.value.entries && cs[i].hash in m.value.entries[k])
  {
    var response := api.commits(CommitsEndpoint);
    match CompleteMap(s, api)
    case Err(e) => Err(e)
    case Ok(branches) =>
      match response
      case None => Ok(None)
      case Some(items) =>
        if items == [] then Ok(Some([]))
        else
          match branches
          case None => Err(TypeError)
          case Some(m) => Ok(Some(seq(|items|, i requires 0 <= i < |items| => CommitRecord(api, m, items[i]))))
  }
}
