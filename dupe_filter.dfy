/** The duplicate filter: pull requests are grouped by their package name
    followed by their repository, and only the members of groups with at least
    two members are returned. */
module DupeFilter {
  import opened PullRequests
  import opened PackageNames

  /** The grouping key: the captured package name concatenated with the
      repository, with no separator; None when the title does not match. */
  function GroupKey(pr: PullRequest): (k: Option<string>)
    ensures k.Some? <==> PackageName(pr.title).Some?
    ensures k.Some? ==> k.value == PackageName(pr.title).value + pr.repository
  {
    match PackageName(pr.title)
    case None => None
    case Some(name) => Some(name + pr.repository)
  }

  /** The members of group `k` in input order. */
  function Group(prs: seq<PullRequest>, k: string): seq<PullRequest>
    decreases |prs|
  {
    if prs == [] then []
    else
      var last := prs[|prs| - 1];
      Group(prs[..|prs| - 1], k) + (if GroupKey(last) == Some(k) then [last] else [])
  }

  /** A pull request is a duplicate when it has a group and that group has
      more than one member. */
  predicate IsDuplicate(prs: seq<PullRequest>, pr: PullRequest) {
    GroupKey(pr).Some? && |Group(prs, GroupKey(pr).value)| > 1
  }

  /** Reference output: the duplicates of `whole` among `s`, in input order. */
  function DuplicatesAmong(whole: seq<PullRequest>, s: seq<PullRequest>): seq<PullRequest>
    decreases |s|
  {
    if s == [] then []
    else
      DuplicatesAmong(whole, s[..|s| - 1])
      + (if IsDuplicate(whole, s[|s| - 1]) then [s[|s| - 1]] else [])
  }

  function Duplicates(prs: seq<PullRequest>): seq<PullRequest> {
    DuplicatesAmong(prs, prs)
  }

  /** The groups named by `order`, one after the other. */
  function ConcatGroups(prs: seq<PullRequest>, order: seq<string>): seq<PullRequest>
    decreases |order|
  {
    if order == [] then []
    else ConcatGroups(prs, order[..|order| - 1]) + Group(prs, order[|order| - 1])
  }

  predicate Distinct(order: seq<string>) {
    forall a, b :: 0 <= a < b < |order| ==> order[a] != order[b]
  }

  /** Go's map indexing: the group stored under `k`, or the empty slice. */
  function Lookup(m: map<string, seq<PullRequest>>, k: string): seq<PullRequest> {
    if k in m then m[k] else []
  }

  /** Appending one pull request extends its own group only. */
  lemma GroupAppend(prs: seq<PullRequest>, pr: PullRequest, k: string)
    ensures Group(prs + [pr], k) == Group(prs, k) + (if GroupKey(pr) == Some(k) then [pr] else [])
  {
    assert (prs + [pr])[..|prs|] == prs;
  }

  /** How often `pr` occurs in group `k`: as often as in the input when its
      key is `k`, and never otherwise. */
  lemma {:induction false} GroupCount(prs: seq<PullRequest>, k: string, pr: PullRequest)
    ensures multiset(Group(prs, k))[pr] == if GroupKey(pr) == Some(k) then multiset(prs)[pr] else 0
    decreases |prs|
  {
    if prs != [] {
      var init := prs[..|prs| - 1];
      GroupCount(init, k, pr);
      assert prs == init + [prs[|prs| - 1]];
    }
  }

  /** Every member of group `k` is an input pull request with key `k`. */
  lemma GroupMembers(prs: seq<PullRequest>, k: string, pr: PullRequest)
    ensures pr in Group(prs, k) <==> pr in prs && GroupKey(pr) == Some(k)
  {
    GroupCount(prs, k, pr);
  }

  lemma {:induction false} ConcatGroupsCount(prs: seq<PullRequest>, order: seq<string>, pr: PullRequest)
    requires Distinct(order)
    ensures multiset(ConcatGroups(prs, order))[pr]
         == if GroupKey(pr).Some? && GroupKey(pr).value in order then multiset(prs)[pr] else 0
    decreases |order|
  {
    if order != [] {
      var init, last := order[..|order| - 1], order[|order| - 1];
      assert Distinct(init);
      ConcatGroupsCount(prs, init, pr);
      GroupCount(prs, last, pr);
      assert last !in init;
      assert order == init + [last];
    }
  }

  lemma {:induction false} DuplicatesAmongCount(whole: seq<PullRequest>, s: seq<PullRequest>, pr: PullRequest)
    ensures multiset(DuplicatesAmong(whole, s))[pr] == if IsDuplicate(whole, pr) then multiset(s)[pr] else 0
    decreases |s|
  {
    if s != [] {
      var init := s[..|s| - 1];
      DuplicatesAmongCount(whole, init, pr);
      assert s == init + [s[|s| - 1]];
    }
  }

  /** The reference output holds exactly the members of the groups with more
      than one member, each as often as in the input. */
  lemma DuplicatesCount(prs: seq<PullRequest>, pr: PullRequest)
    ensures multiset(Duplicates(prs))[pr] == if IsDuplicate(prs, pr) then multiset(prs)[pr] else 0
  {
    DuplicatesAmongCount(prs, prs, pr);
  }

  /** The output is contained in the input, so it is never longer; every
      output pull request's title matches the pattern and belongs to a group
      of at least two. */
  lemma DuplicatesWithinInput(prs: seq<PullRequest>)
    ensures multiset(Duplicates(prs)) <= multiset(prs)
    ensures |Duplicates(prs)| <= |prs|
    ensures forall pr :: pr in Duplicates(prs) ==>
              IsDuplicate(prs, pr) && PackageName(pr.title).Some? && exists i :: MatchesAt(pr.title, i)
  {
    forall pr ensures multiset(Duplicates(prs))[pr] <= multiset(prs)[pr] {
      DuplicatesCount(prs, pr);
    }
    forall pr | pr in Duplicates(prs)
      ensures IsDuplicate(prs, pr) && PackageName(pr.title).Some? && exists i :: MatchesAt(pr.title, i)
    {
      DuplicatesCount(prs, pr);
    }
    assert |multiset(Duplicates(prs))| <= |multiset(prs)| by {
      var d := multiset(Duplicates(prs));
      assert multiset(prs) == d + (multiset(prs) - d);
    }
  }

  /** A title without a match never reaches the output. */
  lemma UnmatchedDropped(prs: seq<PullRequest>, pr: PullRequest)
    requires forall i :: !MatchesAt(pr.title, i)
    ensures pr !in Duplicates(prs)
  {
    DuplicatesCount(prs, pr);
  }

  /** A title that is a bump of `name` and nothing else groups under
      `name + repository`. */
  lemma BumpGroupKey(pr: PullRequest, name: string)
    requires |name| >= 1 && AllNameChars(name)
    requires pr.title == "Bump " + name || pr.title == "bump " + name
    ensures GroupKey(pr) == Some(name + pr.repository)
  {
    assert pr.title == "Bump " + name + [] || pr.title == "bump " + name + [];
    BumpName(pr.title, name, []);
  }

  /** The same package in two repositories gives two groups. */
  lemma SameNameOtherRepository(a: PullRequest, b: PullRequest)
    requires PackageName(a.title).Some? && PackageName(a.title) == PackageName(b.title)
    requires a.repository != b.repository
    ensures GroupKey(a) != GroupKey(b)
  {
    var n := PackageName(a.title).value;
    assert (n + a.repository)[|n|..] == a.repository;
    assert (n + b.repository)[|n|..] == b.repository;
  }

  /** Different packages can share a group when the concatenations coincide:
      a bump of `lib/co` in `reorg/r` and a bump of `lib/core` in `org/r`
      (`suffix` is `re`) share one group. */
  lemma GroupKeyCollision(a: PullRequest, b: PullRequest, name: string, suffix: string)
    requires PackageName(a.title) == Some(name) && PackageName(b.title) == Some(name + suffix)
    requires |suffix| >= 1 && a.repository == suffix + b.repository
    ensures a.repository != b.repository && a.title != b.title
    ensures GroupKey(a) == GroupKey(b)
  {
    ConcatShift(name, suffix, b.repository);
  }

  lemma ConcatShift(name: string, suffix: string, repository: string)
    requires |suffix| >= 1
    ensures name + (suffix + repository) == (name + suffix) + repository
    ensures suffix + repository != repository && name != name + suffix
  {
    assert |suffix + repository| > |repository|;
  }

  /** The group of `k` in a three-element input, spelled out. */
  lemma GroupOfThree(a: PullRequest, b: PullRequest, c: PullRequest, k: string)
    ensures Group([a, b, c], k)
         == (if GroupKey(a) == Some(k) then [a] else [])
          + (if GroupKey(b) == Some(k) then [b] else [])
          + (if GroupKey(c) == Some(k) then [c] else [])
  {
    GroupAppend([], a, k);
    assert [] + [a] == [a];
    GroupAppend([a], b, k);
    assert [a] + [b] == [a, b];
    GroupAppend([a, b], c, k);
    assert [a, b] + [c] == [a, b, c];
  }

  /** Of three pull requests, the two that share a key are the duplicates. */
  lemma PairOfThree(a: PullRequest, b: PullRequest, c: PullRequest, pair: string, single: string)
    requires GroupKey(a) == GroupKey(b) == Some(pair) && GroupKey(c) == Some(single)
    requires pair != single
    ensures Duplicates([a, b, c]) == [a, b]
  {
    var prs := [a, b, c];
    GroupOfThree(a, b, c, pair);
    GroupOfThree(a, b, c, single);
    assert IsDuplicate(prs, a) && IsDuplicate(prs, b) && !IsDuplicate(prs, c);
    assert DuplicatesAmong(prs, [a]) == [a] by { assert [a][..0] == []; }
    assert DuplicatesAmong(prs, [a, b]) == [a, b] by { assert [a, b][..1] == [a]; }
    assert prs[..2] == [a, b];
  }

  lemma SuffixCancels(x: string, y: string, r: string)
    requires x != y
    ensures x + r != y + r
  {
    assert (x + r)[..|x|] == x && (y + r)[..|y|] == y;
  }

  /** Two bumps of one package in one repository are kept, whatever the case
      of their leading letter (`Bump lodash`, `bump lodash`); a single bump of
      another package (`Bump axios`) is dropped. */
  lemma TwoBumpsOfOnePackage(a: PullRequest, b: PullRequest, c: PullRequest, name: string, other: string)
    requires a.repository == b.repository == c.repository
    requires |name| >= 1 && AllNameChars(name) && |other| >= 1 && AllNameChars(other)
    requires name != other
    requires a.title == "Bump " + name && b.title == "bump " + name && c.title == "Bump " + other
    ensures Duplicates([a, b, c]) == [a, b]
  {
    BumpGroupKey(a, name);
    BumpGroupKey(b, name);
    BumpGroupKey(c, other);
    var r := a.repository;
    SuffixCancels(name, other, r);
    PairOfThree(a, b, c, name + r, other + r);
  }

  /** The first loop of filterDuplicatePullRequests: the package map, from
      grouping key to the pull requests with that key, in input order. Titles
      without a match are dropped (the source logs them). */
  method GroupByPackage(prs: seq<PullRequest>) returns (packageMap: map<string, seq<PullRequest>>)
    ensures forall k :: Lookup(packageMap, k) == Group(prs, k)
    ensures forall k :: k in packageMap ==> packageMap[k] != []
  {
    packageMap := map[];
    var i := 0;
    while i < |prs|
      invariant 0 <= i <= |prs|
      invariant forall k :: Lookup(packageMap, k) == Group(prs[..i], k)
      invariant forall k :: k in packageMap ==> packageMap[k] != []
    {
      var pr := prs[i];
      assert prs[..i + 1] == prs[..i] + [pr];
      ghost var before := packageMap;
      var packageInfo := PackageName(pr.title);
      if packageInfo.Some? {
        var packageName := packageInfo.value + pr.repository;
        packageMap := packageMap[packageName := Lookup(packageMap, packageName) + [pr]];
      }
      forall k ensures Lookup(packageMap, k) == Group(prs[..i + 1], k) {
        GroupAppend(prs[..i], pr, k);
        assert Lookup(before, k) == Group(prs[..i], k);
      }
      i := i + 1;
    }
    assert prs[..|prs|] == prs;
  }

  /** filterDuplicatePullRequests. The source visits its groups in map
      iteration order, which Go leaves unspecified; the ghost `order` records
      the order this run chose. The error result is always None. */
  method FilterDuplicatePullRequests(prs: seq<PullRequest>)
    returns (filtered: seq<PullRequest>, err: Option<string>, ghost order: seq<string>)
    ensures err == None
    ensures filtered == ConcatGroups(prs, order)
    ensures Distinct(order)
    ensures forall k :: k in order <==> |Group(prs, k)| > 1
    ensures multiset(filtered) == multiset(Duplicates(prs))
  {
    var packageMap := GroupByPackage(prs);
    filtered := [];
    order := [];
    var remaining := packageMap.Keys;
    while remaining != {}
      invariant remaining <= packageMap.Keys
      invariant filtered == ConcatGroups(prs, order)
      invariant Distinct(order)
      invariant forall k :: k in order <==> k in packageMap && k !in remaining && |packageMap[k]| > 1
      decreases remaining
    {
      var k :| k in remaining;
      var prsOfPackage := packageMap[k];
      assert prsOfPackage == Group(prs, k) by {
        assert Lookup(packageMap, k) == Group(prs, k);
      }
      if |prsOfPackage| > 1 {
        filtered := filtered + prsOfPackage;
        order := order + [k];
      }
      remaining := remaining - {k};
    }
    err := None;

    forall k ensures k in order <==> |Group(prs, k)| > 1 {
      assert Lookup(packageMap, k) == Group(prs, k);
    }
    forall pr ensures multiset(filtered)[pr] == multiset(Duplicates(prs))[pr] {
      ConcatGroupsCount(prs, order, pr);
      DuplicatesCount(prs, pr);
    }
  }
}
