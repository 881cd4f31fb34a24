/** Python-level vocabulary shared by the models of the queue consumer and of
    the GitHub and GitLab request senders: optional values, raised exceptions,
    decoded literals, the normalised records every sender returns, and the
    few string operations the senders use. */
module Common {

  datatype Option<+T> = None | Some(value: T)

  /** The Python exceptions the modelled code raises, by class name. */
  datatype Exception =
    | TypeError
    | KeyError
    | IndexError
    | AttributeError
    | AssertionError
    | OtherError(name: string)  // raised by code outside the model (the network, a parser)

  /** A call either returns a value or raises. */
  datatype Result<+T> = Ok(value: T) | Err(error: Exception)

  /** A decoded Python literal or JSON document. */
  datatype Json =
    | JNull
    | JBool(b: bool)
    | JInt(i: int)
    | JStr(s: string)
    | JList(items: seq<Json>)
    | JDict(fields: map<string, Json>)

  /** `d.get(key)`: the value under `key`, or None when it is absent. */
  function DictGet(d: map<string, Json>, key: string): (r: Json)
    ensures key in d ==> r == d[key]
    ensures key !in d ==> r == JNull
  {
    if key in d then d[key] else JNull
  }

  // The normalised records the senders hand back to the consumer.

  /** `{"id", "repo_name", "creation_date", "owner", "url"}`; the date is an
      int where the sender converts it and the raw string where it does not. */
  datatype Repo<D> = Repo(id: int, repoName: string, creationDate: D, owner: string, url: string)

  /** `{"name"}` */
  datatype Branch = Branch(name: string)

  /** `{"hash", "author", "message", "date"}` */
  datatype CommitSummary = CommitSummary(hash: string, author: string, message: string, date: int)

  /** `{"hash", "author", "message", "date", "branch"}`; the branch is a name
      for GitLab and a list of names or "unknown" for GitHub. */
  datatype Commit<B> = Commit(hash: string, author: string, message: string, date: int, branch: B)

  /** `{"name", "number_of_commits", "email", "url"}` */
  datatype Contributor = Contributor(name: string, numberOfCommits: int, email: string, url: string)

  /** No element occurs twice. */
  predicate Distinct<T(==)>(s: seq<T>) {
    forall i, j :: 0 <= i < j < |s| ==> s[i] != s[j]
  }

  /** `order` lists the keys of `m`, each once: the iteration order of a dict. */
  predicate IsKeyOrder<V>(order: seq<string>, m: map<string, V>) {
    && Distinct(order)
    && (forall k :: k in order ==> k in m)
    && (forall k :: k in m ==> k in order)
  }

  /** `s.split(sep)[0]`: the longest prefix of `s` that holds no `sep`. */
  function FirstField(s: string, sep: char): (r: string)
    ensures r <= s
    ensures sep !in r
    ensures |r| == |s| || s[|r|] == sep
  {
    if s == [] || s[0] == sep then [] else [s[0]] + FirstField(s[1..], sep)
  }

  /** Splitting a joined string gives back its first field. */
  lemma {:induction false} FirstFieldOfJoin(head: string, sep: char, tail: string)
    requires sep !in head
    ensures FirstField(head + [sep] + tail, sep) == head
  {
    if head != [] {
      assert (head + [sep] + tail)[1..] == head[1..] + [sep] + tail;
      FirstFieldOfJoin(head[1..], sep, tail);
    }
  }

  /** `s[:-n]`: the slice drops the last `n` characters, and is empty when
      `s` is shorter than `n`. */
  function DropLast(s: string, n: nat): (r: string)
    ensures r <= s
    ensures |r| == if |s| >= n then |s| - n else 0
  {
    if |s| >= n then s[..|s| - n] else []
  }
}
