# HeatMapTraining: the queue consumer and the request senders, in Dafny

HeatMapTraining draws commit heat maps of Git repositories. A producer puts a
request such as `{"action": "get_commits", ...}` on a RabbitMQ queue. The
consumer (`RabbitMQReceiver`) routes the request through a fixed table to a
request sender for GitHub or GitLab. The sender fetches the hosting
service's REST API and reshapes the JSON into normalised records
(repository, branches, commits, contributors). The consumer publishes the
result back to the requester and acknowledges the delivery.

This project models three parts of that system and proves properties of them.

- **The consumer** (`rabbitmq_receiver.dfy`, module `Receiver`).
  - Connection retry loop: the `Connect` method.
  - Queue declaration and consumer registration: the constructor of class `Receiver`.
  - The six-entry action table and `worker`'s dispatch: functions over an abstract adapter.
  - `callback`'s publish-then-acknowledge: the method `Receiver.Callback`.
  - `start_consuming`: a loop of callbacks.
  - The broker is one event log held by the class. The log records queue declarations, consumer registration, adapter use, publications and acknowledgements. `Replies` and `Acks` are its publication and acknowledgement views.
- **The GitHub sender** (`github_request_sender_v3.dfy`, module `GitHubSender`, with the dict-of-sets vocabulary in `set_dict.dfy`, module `SetDicts`).
  - The record mappers are modelled as functions.
  - The commit→branch attribution is modelled as methods whose loops are proved equal to specification functions. It groups pull-request head SHAs under their stripped labels, builds the branch→SHA-set map, merges the two, and matches a SHA to branches.
  - Properties of the specification functions are proved as lemmas.
  - Python dicts are modelled with their insertion order (`SetDict.order`), because `match_branch_to_commit` lists branches in dict order.
- **The two GitLab senders** (`gitlab_request_sender.dfy`, `gitlab_request_sender_legacy.dfy`, sharing `gitlab_api.dfy`).
  - These are pure mappers from a fetched `(status, json)` response to records.
  - URLs are built by concatenation.

Throughout, `requests.get`, `_request`, `Builder`, the date conversions and
the broker's transport are inputs: functions or values passed in. Python
exceptions are modelled as `Err(...)` results naming the exception class.

## Model

| member | source | states |
|---|---|---|
| Receiver.Connect | consumer/rabbitmq_receiver.py:27-45 | At most 31 attempts (one plus `retries = 30`). It connects exactly when the last attempt succeeds. Every earlier attempt failed. Failing means all 31 attempts were made. |
| Receiver.Receiver.constructor | consumer/rabbitmq_receiver.py:23-55 | Records the connect outcome. Once connected, the log is: request queue declared, then response queue, then the consumer registered on the request queue with `no_ack=False`. After 31 failures nothing is declared. |
| Receiver.ActionTable | consumer/rabbitmq_receiver.py:83-90 | The table has exactly the six action names as keys, each bound to the operation of that name. |
| Receiver.Lookup | consumer/rabbitmq_receiver.py:97-106 | `methods[key]` succeeds iff the key is one of the six names, and then yields the operation named so. Otherwise it raises KeyError, or TypeError for an unhashable key. |
| Receiver.LookupActionName | consumer/rabbitmq_receiver.py:83-90 | Each operation is found under its own name. |
| Receiver.Arguments | consumer/rabbitmq_receiver.py:76-77 | `get_commit_by_hash` is passed the body's "hash" value and `get_commits_by_branch` its "branch" value, each None when the key is absent. The other four operations are passed nothing. |
| Receiver.Worker | consumer/rabbitmq_receiver.py:62-108 | A body that is not a dict with an "action" fails before the adapter is built and touches nothing. The adapter is used iff the action is present and the builder succeeds. |
| Receiver.WorkerUsesAdapterOnce | consumer/rabbitmq_receiver.py:74-108 | The adapter is acquired and released once on every path that built it, with at most one invocation between. There is an invocation iff the action is in the table; otherwise the worker fails as the lookup does. The invoked operation is the requested one. The `hash`/`branch` argument goes only to the two one-parameter operations (None when absent). The worker returns the call's result. |
| Receiver.ReplyTo | consumer/rabbitmq_receiver.py:125-131 | A reply is published iff there is a value to serialise and the publish does not raise. It goes on the default exchange, routed to `reply_to`, carrying `correlation_id` and the worker's value. |
| Receiver.CallbackRepliesOnce | consumer/rabbitmq_receiver.py:125-136 | One callback publishes exactly that reply, or none. It acknowledges its delivery tag exactly once when it replied, and not at all otherwise. Nothing is acknowledged when the publish raises. |
| Receiver.CallbackOrder | consumer/rabbitmq_receiver.py:80-136 | All adapter use precedes the publication. The acknowledgement comes right after the publication, as the last event. Every acknowledgement is preceded by a publication. |
| Receiver.RegisteredRequestGetsItsReply | consumer/rabbitmq_receiver.py:75-136 | Provided the publish does not raise, a registered action whose adapter call returns `v` gets exactly one reply carrying `v` to `reply_to`/`correlation_id`, and one acknowledgement of its tag. |
| Receiver.UnregisteredActionNeverCallsAdapter | consumer/rabbitmq_receiver.py:83-106 | An action missing from the table never invokes an adapter method. |
| Receiver.Receiver.Callback | consumer/rabbitmq_receiver.py:111-136 | The log grows by exactly the adapter use, then the reply and the ack. The body returns normally iff it replied. Otherwise the body raises the worker's exception or the publish's exception. |
| Receiver.Receiver.StartConsuming | consumer/rabbitmq_receiver.py:58 | The log grows by the callbacks' events, one delivery after another, in arrival order. |
| Receiver.SessionRepliesInArrivalOrder | consumer/rabbitmq_receiver.py:58 | Over a session, the published replies are the per-delivery replies in arrival order. The acknowledged tags are exactly the tags of the deliveries that got a reply, in the same order. |
| Receiver.RepliedTags | consumer/rabbitmq_receiver.py:136 | Every acknowledged tag is the tag of some delivery of the session. |
| Receiver.NoTagAckedTwice | consumer/rabbitmq_receiver.py:136 | With distinct delivery tags, no tag is acknowledged twice in a session. |
| SetDicts.AddSet | heat_map_training/request_sender/github_request_sender_v3.py:95 | `setdefault(k, set()).add(...)` keeps the dict's key order well formed (every key once). |
| SetDicts.GroupMeaning | heat_map_training/request_sender/github_request_sender_v3.py:77-80 | Grouping pairs by `setdefault(...).add` gives exactly the pairs' keys, each holding exactly the values paired with it. |
| SetDicts.ClaimedMeaning | heat_map_training/request_sender/github_request_sender_v3.py:88-89 | The SHAs the first loop visits are exactly those held under some key of the pull-request dict. |
| SetDicts.AddGroupsMeaning | heat_map_training/request_sender/github_request_sender_v3.py:93-95 | The second loop keeps every key and adds the keys whose group is non-empty. Each key's set becomes its old set united with its group. |
| SetDicts.MergeMeaning | heat_map_training/request_sender/github_request_sender_v3.py:86-96 | The merged dict keeps every existing key, even one whose set was emptied, and adds the non-empty pull-request keys. Each key holds its unclaimed existing SHAs plus its pull-request SHAs. |
| SetDicts.MergeKeys | heat_map_training/request_sender/github_request_sender_v3.py:86-96 | With no empty pull-request set, the merged keys are exactly the existing keys and the pull-request keys. |
| SetDicts.MergeAttribution | heat_map_training/request_sender/github_request_sender_v3.py:88-95 | A SHA claimed by a pull request ends up under exactly the pull-request keys listing it. Any other SHA stays under exactly the existing keys that held it. |
| GitHubSender.GetRepo | heat_map_training/request_sender/github_request_sender_v3.py:114-123 | None iff there is no response. Otherwise id, name and url are copied, the date is converted with the GitHub format, and the owner is the owner's login. |
| GitHubSender.GetBranches | heat_map_training/request_sender/github_request_sender_v3.py:140-142 | One `{"name"}` per listed branch, in order. No response raises TypeError. |
| GitHubSender.CommitsOnBranch | heat_map_training/request_sender/github_request_sender_v3.py:197-205 | None iff there is no response. Otherwise one record per listed commit, in order, with the sha, the author name, the message and the converted author date. |
| GitHubSender.GetCommitsByBranch | heat_map_training/request_sender/github_request_sender_v3.py:196-205 | A non-string branch fails the assertion and nothing else does. A string branch gives its commits' records. |
| GitHubSender.GetContributors | heat_map_training/request_sender/github_request_sender_v3.py:255-262 | None iff there is no response. Otherwise one record per contributor, in order, with the login as both name and email. |
| GitHubSender.Matching | heat_map_training/request_sender/github_request_sender_v3.py:20 | The comprehension keeps exactly the keys whose set holds the SHA, without repeats, in the order the keys are iterated. |
| GitHubSender.MatchBranchToCommit | heat_map_training/request_sender/github_request_sender_v3.py:13-23 | "unknown" iff no branch's set holds the SHA. Otherwise a non-empty list of exactly the branches holding it, each once, in the dict's key order. |
| GitHubSender.LabelOfOwnBranch | heat_map_training/request_sender/github_request_sender_v3.py:78-79 | Stripping `owner + ":"` from the label `owner:branch` gives the branch back. |
| GitHubSender.PullRequestBranchesMeaning | heat_map_training/request_sender/github_request_sender_v3.py:73-81 | The keys are exactly the stripped labels. Every pull request's head SHA is under its stripped label. Every stored SHA heads a pull request with that label. |
| GitHubSender.PullRequestDictFacts | heat_map_training/request_sender/github_request_sender_v3.py:76-80 | No key's set is empty. A SHA is under a key iff some pull request with that stripped label has it as head. |
| GitHubSender.BranchesFromPullRequest | heat_map_training/request_sender/github_request_sender_v3.py:73-81 | The loop returns None for no pull requests, and otherwise the grouping that PullRequestBranchesMeaning characterises. |
| GitHubSender.ListOfBranches | heat_map_training/request_sender/github_request_sender_v3.py:53-54 | The branch names `get_branches` lists, in order. It fails as `get_branches` does. |
| GitHubSender.BranchPairsMeaning | heat_map_training/request_sender/github_request_sender_v3.py:47-49 | The nested loops visit a (branch, SHA) pair iff the branch is listed and the SHA is one of its commits. |
| GitHubSender.ExistingMapMeaning | heat_map_training/request_sender/github_request_sender_v3.py:43-50 | Every branch is fetched. The keys are exactly the listed branches with at least one commit, each holding exactly its commits' SHAs. |
| GitHubSender.AddBranchCommits | heat_map_training/request_sender/github_request_sender_v3.py:48-49 | The inner loop adds every commit's SHA under the branch, as grouping the branch's (branch, SHA) pairs after the pairs already added. |
| GitHubSender.ExistingCommitBranchMap | heat_map_training/request_sender/github_request_sender_v3.py:43-50 | The loops give the existing map: IndexError for no branches; None when the first branch's commits are None; TypeError when a later branch's are None. |
| GitHubSender.DictOfCommits | heat_map_training/request_sender/github_request_sender_v3.py:57-64 | None iff there are no commits. Otherwise the keys are exactly the commits' hashes, and every value is "master". |
| GitHubSender.RemoveFromEach | heat_map_training/request_sender/github_request_sender_v3.py:90-92 | The loop over `values()` removes one SHA from every set and keeps the keys and their order. |
| GitHubSender.RemoveShas | heat_map_training/request_sender/github_request_sender_v3.py:89-92 | Removes every SHA of a set from every existing branch. With no existing map, the first SHA raises AttributeError. |
| GitHubSender.RemoveClaimed | heat_map_training/request_sender/github_request_sender_v3.py:88-92 | The first loop removes every pull-request SHA from every existing branch. It raises AttributeError on a None map iff some SHA is claimed. |
| GitHubSender.AddShas | heat_map_training/request_sender/github_request_sender_v3.py:94-95 | `setdefault(key, set()).add(item)` for every SHA of a set equals adding the whole set under the key. |
| GitHubSender.AddClaimed | heat_map_training/request_sender/github_request_sender_v3.py:93-95 | The second loop adds every pull-request group under its key, in the pull-request dict's order. |
| GitHubSender.MergeIntoExisting | heat_map_training/request_sender/github_request_sender_v3.py:88-95 | The two loops together compute the merge that MergeMeaning and MergeAttribution characterise, including the error and None cases. |
| GitHubSender.CompleteMap | heat_map_training/request_sender/github_request_sender_v3.py:85-96 | Any dict the complete map returns lists each key once in its order. |
| GitHubSender.CompleteMapIsMerge | heat_map_training/request_sender/github_request_sender_v3.py:85-96 | A complete map that is a dict is the merge of the existing map of the listed branches with the pull-request dict. |
| GitHubSender.CompleteMapKeys | heat_map_training/request_sender/github_request_sender_v3.py:86-96 | Its keys are exactly the listed branches with commits plus the stripped pull-request labels. No existing key is dropped. |
| GitHubSender.CompleteMapPullRequestSha | heat_map_training/request_sender/github_request_sender_v3.py:88-95 | A SHA heading some pull request is under exactly the stripped labels of the pull requests it heads, and under no other branch. |
| GitHubSender.CompleteMapOtherSha | heat_map_training/request_sender/github_request_sender_v3.py:86-96 | A SHA heading no pull request is under exactly the listed branches whose commits include it. |
| GitHubSender.CompleteCommitBranchMap | heat_map_training/request_sender/github_request_sender_v3.py:85-96 | The method, built from the loops above, returns the complete map, errors included. |
| GitHubSender.GetCommitByHash | heat_map_training/request_sender/github_request_sender_v3.py:224-235 | A non-string hash fails the assertion. An error building the complete map propagates. No response gives None. Otherwise the commit's fields, with exactly the branches of the complete map that hold its SHA, or "unknown". A None map raises TypeError. |
| GitHubSender.GetCommits | heat_map_training/request_sender/github_request_sender_v3.py:163-174 | An error building the complete map propagates. No response gives None. Otherwise one record per listed commit, in order, each with the branches holding its SHA or "unknown". A None map raises TypeError unless the listing is empty. |
| GitLabApi.ProjectUrlInjective | heat_map_training/request_sender/gitlab_request_sender.py:50 | `base_url + owner + "%2F" + repo` determines owner and repo when owners contain no '%'. |
| GitLabApi.CommitUrlCarriesHash | heat_map_training/request_sender/gitlab_request_sender.py:103-104 | The hash is appended verbatim to the commits URL. The refs URL is the commit URL plus "/refs". |
| GitLabApi.CommitsByBranchUrlInjective | heat_map_training/request_sender/gitlab_request_sender.py:234-235 | The branch is appended verbatim, so different branches are fetched at different URLs. |
| GitLabApi.Owner | heat_map_training/request_sender/gitlab_request_sender.py:60 | `split("/")[0]` is the prefix of the path up to its first '/', or the whole path when it has none. |
| GitLabApi.OwnerOfNamespacedPath | heat_map_training/request_sender/gitlab_request_sender.py:60 | The owner of "group/project" is "group". |
| GitLabApi.TimestampIgnoresSuffix | heat_map_training/request_sender/gitlab_request_sender.py:11-17 | `_timestamp` ignores the last five characters of a date. |
| GitLabSender.DefaultProject | heat_map_training/request_sender/gitlab_request_sender.py:26-32 | A sender built without a `base_url` asks for `https://gitlab.com/api/v4/projects/` + owner + `%2F` + repo. |
| GitLabSender.GetRepo | heat_map_training/request_sender/gitlab_request_sender.py:50-64 | id, name and web URL are copied, the creation date goes through `_timestamp`, and the owner is the namespace's first segment. |
| GitLabSender.GetRepoOwnerIsGroup | heat_map_training/request_sender/gitlab_request_sender.py:60 | A project at "group/name" reports "group" as owner. |
| GitLabSender.GetBranches | heat_map_training/request_sender/gitlab_request_sender.py:81-95 | None iff the status is not 200. Otherwise one `{"name"}` per listed branch, in order. |
| GitLabSender.BranchForCommit | heat_map_training/request_sender/gitlab_request_sender.py:103-108 | The first ref's name. An empty refs listing raises IndexError, and nothing else does. |
| GitLabSender.CommitRecords | heat_map_training/request_sender/gitlab_request_sender.py:135-141 | Succeeds iff every commit has a branch, and otherwise raises IndexError. One record per commit, in order: id, committer name, message, converted creation date and branch. |
| GitLabSender.GetCommits | heat_map_training/request_sender/gitlab_request_sender.py:129-143 | One record per listed commit, in order, whatever the status: hash = `id`, author = `committer_name`, the message, the timestamp of `created_at`, and the first ref's branch. It fails with IndexError iff some commit's refs listing is empty. |
| GitLabSender.GetContributors | heat_map_training/request_sender/gitlab_request_sender.py:163-177 | One record per contributor, in order: name, commits count and email copied, with url always "None". |
| GitLabSender.GetCommitByHash | heat_map_training/request_sender/gitlab_request_sender.py:195-210 | A non-string hash raises TypeError. Otherwise the commit's id, author name, message and converted committed date, with the branch looked up for the requested hash. It fails iff that lookup does. |
| GitLabSender.GetCommitsByBranch | heat_map_training/request_sender/gitlab_request_sender.py:233-254 | A non-string branch raises TypeError. None iff the status is not 200. Otherwise a dict whose only key is the branch, holding one record per commit, in order. |
| GitLabSenderLegacy.GetRepo | request_sender/gitlab_request_sender.py:42-54 | id, name and web URL are copied, `created_at` is passed through unconverted, and the owner is the namespace's first segment. |
| GitLabSenderLegacy.GetBranches | request_sender/gitlab_request_sender.py:71-79 | One `{"name"}` per listed branch, in order, with no status check. |
| GitLabSenderLegacy.GetCommits | request_sender/gitlab_request_sender.py:100-112 | One four-field record per listed commit, in order, with no branch. |
| GitLabSenderLegacy.GetCommitsByBranch | request_sender/gitlab_request_sender.py:135-147 | A non-string branch raises TypeError. Otherwise a dict whose only key is the branch, holding exactly what the commit listing gives for those commits. |
| GitLabSenderLegacy.ListingsIgnoreStatus | request_sender/gitlab_request_sender.py:74-110 | The branch and commit listings do not depend on the status code. |

## Left out

### Inputs and side effects
- The broker's transport is not modelled: `pika.BlockingConnection`, `channel()`, `time.sleep(1)`, and the network behind `basic_publish`/`basic_ack`. Connection success is an input function `connects(k)`; a failing publish is an input; an ack cannot fail.
- `try_except_decor` is not part of this model. Only its effect on `worker` is an input: `World.onWorkerError` is the value it returns in place of a worker exception, or None if it re-raises.
- Receiver.Receiver.Callback: `exit` is the outcome of the body at lines 111-136. What the `@try_except_decor` at line 110 then does with a raised exception (swallow it or re-raise it) is not modelled.
- Receiver.Receiver.constructor: models the body of `__init__`. After 31 failed attempts the body re-raises the last connection error (line 43); the model records that as `connected` false with an empty log. What the `@try_except_decor` on `__init__` (line 22) then does with the exception is not modelled.
- `LOG` calls are not modelled.
- `Builder` is not part of this model. Its result, an adapter or an exception, is an input; the adapter's six methods are fixed results or functions of their one argument.
- `literal_eval(body.decode())` and `json.dumps` are not modelled. The decoded body is an input (`Delivery.decoded`), and the reply carries the JSON value itself rather than its serialisation.
- Receiver.Receiver.StartConsuming: treats every callback as returning. An exception escaping a callback, which would stop `start_consuming`, is not modelled.
- `requests.get` and the base classes' `_request` (`GithubRequestSenderBase`, `RequestSender`) are not part of this model. They are input functions from the endpoint to the parsed body (and the status, for GitLab).
- Every `_request` to one endpoint is assumed to return the same body, because `_request` is modelled as a function of the endpoint. The GitHub sender repeats fetches in two places:
  - `_get_list_of_branches` calls `get_branches()` again, a new `/branches` fetch, for every listed branch in its always-true filter (line 54).
  - `_get_existing_commit_branch_map` fetches the first branch's commits at line 45 and again at line 48.
- GitHubSender.ExistingMap: its "None when the first branch's commits are None" relies on this. If the second fetch returned None where the first did not, the source would raise TypeError at line 48 instead; that case is not modelled.
- The GitHub sender's `base_url` (`https://api.github.com`, line 34) is handed to the base class, which is not part of this model; the endpoints are modelled relative to it.
- `format_date_to_int` and `strptime(...).timestamp()` are uninterpreted input functions, so a ValueError from an unparsable date is not modelled.
- A malformed upstream response, such as a missing key (KeyError), is not modelled: the response shapes are typed.
- The module-level client construction and `print` at the end of the GitHub sender are import-time side effects and are not modelled.
- The browser front end (`producer/app/static/script.js`) and the producer's client configuration (constants only) are not part of this model.

### Simplifications and weaker contracts
- GitHubSender.GetCommits: reads the listed commits straight from the fetched body. The further `.json()` call on that body (line 166) is not modelled, because what `_request` returns is not part of this model.
- GitHubSender.DictOfCommits: takes the commit list as its argument instead of calling `get_commits` itself. Its result is a plain map, so the order of its keys is not modelled.
- The order in which Python iterates a set (the SHAs of one branch in the merge loops) is not modelled: the methods pick SHAs in any order and are proved correct for every order.
- GitHubSender.Label: `replace(owner + ":", "")` is modelled as written. It also rewrites a fork's label that merely contains `owner:`. Only the owner's own labels are characterised (LabelOfOwnBranch).
