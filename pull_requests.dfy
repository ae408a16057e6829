/** The pull-request record the list and the duplicate filter work on, and the
    key under which the list view tracks a pull request's running operations. */
module PullRequests {

  datatype Option<+T> = None | Some(value: T)

  /** One pull request as fetched from GitHub. The update timestamp is only
      used by the chronological sort, which is not part of this model. */
  datatype PullRequest = PullRequest(
    repository: string,  // "owner/name"
    number: string,      // the pull request's number, in decimal
    title: string,
    url: string)

  /** The tracker key of a pull request: `repository + "/" + number`. */
  function OperationKey(repository: string, number: string): (key: string)
    ensures |key| == |repository| + 1 + |number|
    ensures key[..|repository|] == repository && key[|repository|] == '/'
    ensures key[|repository| + 1..] == number
  {
    repository + "/" + number
  }

  function KeyOf(pr: PullRequest): string {
    OperationKey(pr.repository, pr.number)
  }

  /** A pull request number never contains a slash, so the key determines the
      repository and the number: the last slash in the key separates them. */
  lemma KeyInjective(r1: string, n1: string, r2: string, n2: string)
    requires '/' !in n1 && '/' !in n2
    requires OperationKey(r1, n1) == OperationKey(r2, n2)
    ensures r1 == r2 && n1 == n2
  {
    var key := OperationKey(r1, n1);
    if |n1| != |n2| {
      // the slash that ends the shorter repository would fall inside the longer number
      assert false;
    }
    assert r1 == key[..|r1|] == r2;
  }

  /** Without that guarantee two different pull requests could share a key. */
  lemma KeyCollidesWithSlashInNumber()
    ensures OperationKey("a/b", "1") == OperationKey("a", "b/1")
  {
  }
}
