/** The dicts of sets the GitHub sender builds: string keys kept in insertion
    order, as Python dicts keep them, each mapped to a set of commit SHAs.
    `setdefault(k, set()).add(v)` appends a new key at the end; removing a
    value from every set leaves the keys (and their order) alone. */
module SetDicts {
  import opened Common

  datatype SetDict = SetDict(order: seq<string>, entries: map<string, set<string>>)

  /** `order` is the dict's iteration order: every key exactly once. */
  predicate Valid(d: SetDict) {
    IsKeyOrder(d.order, d.entries)
  }

  const Empty: SetDict := SetDict([], map[])

  /** `d.get(k, set())` */
  function Get(d: SetDict, k: string): set<string> {
    if k in d.entries then d.entries[k] else {}
  }

  /** Adds every value of `s` to the set under `k`, creating the key at the
      end of the order when it is new; adding nothing changes nothing. */
  function AddSet(d: SetDict, k: string, s: set<string>): (r: SetDict)
    ensures Valid(d) ==> Valid(r)
  {
    if s == {} then d
    else if k in d.entries then SetDict(d.order, d.entries[k := d.entries[k] + s])
    else
      assert Valid(d) ==> Distinct(d.order + [k]) by {
        if Valid(d) {
          forall i, j | 0 <= i < j < |d.order + [k]| ensures (d.order + [k])[i] != (d.order + [k])[j] {
            if j == |d.order| {
              assert (d.order + [k])[i] == d.order[i] && d.order[i] in d.order;
            }
          }
        }
      }
      SetDict(d.order + [k], d.entries[k := s])
  }

  /** `d.setdefault(k, set()).add(v)` */
  function SetDefaultAdd(d: SetDict, k: string, v: string): SetDict {
    AddSet(d, k, {v})
  }

  /** Adding two sets under one key one after the other is adding their union. */
  lemma AddSetTwice(d: SetDict, k: string, a: set<string>, b: set<string>)
    ensures AddSet(AddSet(d, k, a), k, b) == AddSet(d, k, a + b)
  {
    if a == {} {
      assert a + b == b;
    } else if b == {} {
      assert a + b == a;
    } else {
      assert k in AddSet(d, k, a).entries;
      assert Get(d, k) + a + b == Get(d, k) + (a + b);
    }
  }

  /** Removes the values of `s` from every set; keys and order stay. */
  function RemoveAll(d: SetDict, s: set<string>): (r: SetDict)
    ensures Valid(d) ==> Valid(r)
  {
    SetDict(d.order, map k | k in d.entries :: d.entries[k] - s)
  }

  /** The dict once `v` has been removed from the sets of the first `n` keys
      of the order: the state of a loop over `d.values()` after `n` steps. */
  function RemovedFromFirst(d: SetDict, v: string, n: nat): SetDict
    requires n <= |d.order|
  {
    SetDict(d.order, map k | k in d.entries :: if k in d.order[..n] then d.entries[k] - {v} else d.entries[k])
  }

  lemma RemovedFromNone(d: SetDict, v: string)
    ensures RemovedFromFirst(d, v, 0) == d
  {
    assert RemovedFromFirst(d, v, 0).entries == d.entries;
  }

  lemma RemovedFromAll(d: SetDict, v: string)
    requires Valid(d)
    ensures RemovedFromFirst(d, v, |d.order|) == RemoveAll(d, {v})
  {
    assert d.order[..|d.order|] == d.order;
    assert RemovedFromFirst(d, v, |d.order|).entries == RemoveAll(d, {v}).entries;
  }

  /** One more step of the loop: the next key's set loses `v` if it holds it. */
  lemma RemovedFromNext(d: SetDict, v: string, n: nat)
    requires Valid(d) && n < |d.order|
    ensures var k := d.order[n];
      var p := RemovedFromFirst(d, v, n);
      && k in p.entries
      && RemovedFromFirst(d, v, n + 1) ==
           if v in p.entries[k] then SetDict(p.order, p.entries[k := p.entries[k] - {v}]) else p
  {
    var k := d.order[n];
    var p := RemovedFromFirst(d, v, n);
    var q := RemovedFromFirst(d, v, n + 1);
    assert k !in d.order[..n] by {
      forall j | 0 <= j < n ensures d.order[..n][j] != k {
      }
    }
    assert d.order[..n + 1] == d.order[..n] + [k];
    if v in p.entries[k] {
      assert q.entries == p.entries[k := p.entries[k] - {v}];
    } else {
      assert d.entries[k] - {v} == d.entries[k];
      assert q.entries == p.entries;
    }
  }

  lemma RemoveNothing(d: SetDict)
    ensures RemoveAll(d, {}) == d
  {
    forall k | k in d.entries ensures RemoveAll(d, {}).entries[k] == d.entries[k] {
      assert d.entries[k] - {} == d.entries[k];
    }
    assert RemoveAll(d, {}).entries == d.entries;
  }

  /** Removing in two steps is removing the union. */
  lemma RemoveAllTwice(d: SetDict, a: set<string>, b: set<string>)
    ensures RemoveAll(RemoveAll(d, a), b) == RemoveAll(d, a + b)
  {
    var lhs := RemoveAll(RemoveAll(d, a), b);
    var rhs := RemoveAll(d, a + b);
    assert lhs.entries.Keys == rhs.entries.Keys;
    forall k | k in lhs.entries ensures lhs.entries[k] == rhs.entries[k] {
      assert d.entries[k] - a - b == d.entries[k] - (a + b);
    }
  }

  // ---------------------------------------------------------------------------
  // Grouping pairs with setdefault-add

  /** The key of every pair. */
  function KeysOf(pairs: seq<(string, string)>): set<string> {
    set p | p in pairs :: p.0
  }

  /** The values paired with `k`. */
  function ValuesOf(pairs: seq<(string, string)>, k: string): set<string> {
    set p | p in pairs && p.0 == k :: p.1
  }

  /** The dict that `for (k, v) in pairs: d.setdefault(k, set()).add(v)`
      builds from an empty dict. */
  function Group(pairs: seq<(string, string)>): SetDict {
    if pairs == [] then Empty
    else
      var last := pairs[|pairs| - 1];
      SetDefaultAdd(Group(pairs[..|pairs| - 1]), last.0, last.1)
  }

  lemma GroupSnoc(pairs: seq<(string, string)>, p: (string, string))
    ensures Group(pairs + [p]) == SetDefaultAdd(Group(pairs), p.0, p.1)
  {
    assert (pairs + [p])[..|pairs|] == pairs;
  }

  /** Grouping gives a dict whose keys are exactly the keys of the pairs,
      each holding exactly the values paired with it. */
  lemma {:induction false} GroupMeaning(pairs: seq<(string, string)>)
    ensures Valid(Group(pairs))
    ensures Group(pairs).entries.Keys == KeysOf(pairs)
    ensures forall k :: k in Group(pairs).entries ==> Group(pairs).entries[k] == ValuesOf(pairs, k)
  {
    if pairs != [] {
      var front := pairs[..|pairs| - 1];
      var last := pairs[|pairs| - 1];
      assert pairs == front + [last];
      GroupMeaning(front);
      forall p ensures p in pairs <==> p in front || p == last {
      }
      assert KeysOf(pairs) == KeysOf(front) + {last.0};
      forall k ensures ValuesOf(pairs, k) == ValuesOf(front, k) + (if k == last.0 then {last.1} else {}) {
      }
    }
  }

  // ---------------------------------------------------------------------------
  // Merging pull-request branches into existing branches

  /** Every value held under one of `keys`. */
  function ClaimedBy(p: SetDict, keys: seq<string>): set<string> {
    if keys == [] then {}
    else ClaimedBy(p, keys[..|keys| - 1]) + Get(p, keys[|keys| - 1])
  }

  lemma {:induction false} ClaimedByMeaning(p: SetDict, keys: seq<string>, v: string)
    ensures v in ClaimedBy(p, keys) <==> exists k :: k in keys && v in Get(p, k)
  {
    if keys != [] {
      var front := keys[..|keys| - 1];
      ClaimedByMeaning(p, front, v);
      forall k ensures k in keys <==> k in front || k == keys[|keys| - 1] {
        assert keys == front + [keys[|keys| - 1]];
      }
    }
  }

  /** Every value held anywhere in the dict. */
  function Claimed(p: SetDict): set<string> {
    ClaimedBy(p, p.order)
  }

  lemma ClaimedMeaning(p: SetDict, v: string)
    requires Valid(p)
    ensures v in Claimed(p) <==> exists k :: k in p.entries && v in p.entries[k]
  {
    ClaimedByMeaning(p, p.order, v);
  }

  /** `for key in keys: for item in p[key]: d.setdefault(key, set()).add(item)` */
  function AddGroups(d: SetDict, p: SetDict, keys: seq<string>): SetDict {
    if keys == [] then d
    else
      var last := keys[|keys| - 1];
      AddSet(AddGroups(d, p, keys[..|keys| - 1]), last, Get(p, last))
  }

  /** Adding the groups of `keys` keeps every key, adds the keys whose group
      is not empty, and unites each key's set with its group. */
  lemma {:induction false} AddGroupsMeaning(d: SetDict, p: SetDict, keys: seq<string>)
    requires Valid(d)
    ensures Valid(AddGroups(d, p, keys))
    ensures forall k :: k in AddGroups(d, p, keys).entries <==>
      k in d.entries || (k in keys && Get(p, k) != {})
    ensures forall k :: k in AddGroups(d, p, keys).entries ==>
      AddGroups(d, p, keys).entries[k] == Get(d, k) + (if k in keys then Get(p, k) else {})
  {
    if keys != [] {
      var front := keys[..|keys| - 1];
      var last := keys[|keys| - 1];
      assert keys == front + [last];
      AddGroupsMeaning(d, p, front);
      forall k ensures k in keys <==> k in front || k == last {
      }
    }
  }

  /** The merge of `_get_complete_commit_branch_map`: every SHA some pull
      request claims is first removed from every existing branch, then each
      pull-request branch's SHAs are added under it. */
  function Merge(e: SetDict, p: SetDict): SetDict {
    AddGroups(RemoveAll(e, Claimed(p)), p, p.order)
  }

  /** The merged dict keeps every existing key, even one whose set was
      emptied, adds the pull-request keys, and under each key holds its
      existing SHAs that no pull request claims plus its pull-request SHAs. */
  lemma MergeMeaning(e: SetDict, p: SetDict)
    requires Valid(e) && Valid(p)
    ensures Valid(Merge(e, p))
    ensures forall k :: k in Merge(e, p).entries <==> k in e.entries || (k in p.entries && p.entries[k] != {})
    ensures forall k :: k in Merge(e, p).entries ==>
      Merge(e, p).entries[k] == (Get(e, k) - Claimed(p)) + Get(p, k)
  {
    var cleaned := RemoveAll(e, Claimed(p));
    AddGroupsMeaning(cleaned, p, p.order);
    forall k ensures Get(cleaned, k) == Get(e, k) - Claimed(p) {
    }
  }

  /** When no pull-request set is empty, the merged keys are the existing
      keys and the pull-request keys. */
  lemma MergeKeys(e: SetDict, p: SetDict)
    requires Valid(e) && Valid(p)
    requires forall k :: k in p.entries ==> p.entries[k] != {}
    ensures forall k :: k in Merge(e, p).entries <==> k in e.entries || k in p.entries
  {
    MergeMeaning(e, p);
  }

  /** Where a SHA ends up after the merge: one that some pull request claims
      is under exactly the pull-request branches that list it; any other SHA
      is under exactly the existing branches that held it. */
  lemma MergeAttribution(e: SetDict, p: SetDict, sha: string)
    requires Valid(e) && Valid(p)
    ensures (exists k :: k in p.entries && sha in p.entries[k]) ==>
      forall k :: k in Merge(e, p).entries ==> (sha in Merge(e, p).entries[k] <==> k in p.entries && sha in p.entries[k])
    ensures (forall k :: k in p.entries ==> sha !in p.entries[k]) ==>
      forall k :: k in Merge(e, p).entries ==> (sha in Merge(e, p).entries[k] <==> k in e.entries && sha in e.entries[k])
  {
    MergeMeaning(e, p);
    ClaimedMeaning(p, sha);
  }
}
