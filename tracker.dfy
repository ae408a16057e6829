/** The in-progress tracker of the list view: a map from operation key to the
    number of background operations currently running for that pull request.
    The pure functions below state what one call does to the map; the class
    OperationTracker performs the same updates in place. */
module Tracker {
  import opened PullRequests

  /** Number of running operations recorded for `key` (0 when absent). */
  function Count(m: map<string, int>, key: string): int {
    if key in m then m[key] else 0
  }

  /** The tracker invariant: a key is present only with a count of at least 1. */
  predicate Positive(m: map<string, int>) {
    forall key :: key in m ==> m[key] >= 1
  }

  /** The map after markInProgress(key). */
  function MarkedInProgress(m: map<string, int>, key: string): (r: map<string, int>)
    ensures r.Keys == m.Keys + {key}
    ensures Count(r, key) == Count(m, key) + 1
    ensures key !in m ==> r[key] == 1
    ensures forall k :: k != key ==> Count(r, k) == Count(m, k)
    ensures Positive(m) ==> Positive(r)
  {
    if key !in m then m[key := 1] else m[key := m[key] + 1]
  }

  /** The map after markDone(key). */
  function MarkedDone(m: map<string, int>, key: string): (r: map<string, int>)
    ensures key !in m ==> r == m
    ensures key in m && m[key] <= 1 ==> r.Keys == m.Keys - {key}
    ensures key in m && m[key] > 1 ==> r.Keys == m.Keys && r[key] == m[key] - 1
    ensures forall k :: k != key ==> Count(r, k) == Count(m, k)
    ensures Positive(m) ==> Positive(r) && Count(r, key) == if key in m then Count(m, key) - 1 else 0
  {
    if key !in m then m
    else if m[key] - 1 <= 0 then m - {key}
    else m[key := m[key] - 1]
  }

  /** markDone undoes markInProgress on a map that keeps the invariant. */
  lemma DoneUndoesInProgress(m: map<string, int>, key: string)
    requires Positive(m)
    ensures MarkedDone(MarkedInProgress(m, key), key) == m
  {
    var r := MarkedDone(MarkedInProgress(m, key), key);
    if key in m {
      assert r == m[key := m[key]];
    } else {
      assert r.Keys == m.Keys;
    }
  }

  /** n successive markInProgress(key) calls */
  function InProgressTimes(m: map<string, int>, key: string, n: nat): map<string, int>
    decreases n
  {
    if n == 0 then m else MarkedInProgress(InProgressTimes(m, key, n - 1), key)
  }

  /** n successive markDone(key) calls */
  function DoneTimes(m: map<string, int>, key: string, n: nat): map<string, int>
    decreases n
  {
    if n == 0 then m else DoneTimes(MarkedDone(m, key), key, n - 1)
  }

  lemma {:induction false} InProgressTimesCount(m: map<string, int>, key: string, n: nat)
    requires Positive(m)
    ensures Positive(InProgressTimes(m, key, n))
    ensures Count(InProgressTimes(m, key, n), key) == Count(m, key) + n
    ensures forall k :: k != key ==> Count(InProgressTimes(m, key, n), k) == Count(m, k)
    decreases n
  {
    if n > 0 {
      InProgressTimesCount(m, key, n - 1);
    }
  }

  /** n markInProgress(key) calls followed by n markDone(key) calls restore
      the map; in particular a key that was absent is absent again. */
  lemma {:induction false} DoneTimesUndoesInProgressTimes(m: map<string, int>, key: string, n: nat)
    requires Positive(m)
    ensures DoneTimes(InProgressTimes(m, key, n), key, n) == m
    decreases n
  {
    if n > 0 {
      var before := InProgressTimes(m, key, n - 1);
      InProgressTimesCount(m, key, n - 1);
      DoneUndoesInProgress(before, key);
      assert MarkedDone(InProgressTimes(m, key, n), key) == before;
      DoneTimesUndoesInProgressTimes(m, key, n - 1);
    }
  }

  /** The scenario of a unit that was idle: after n starts and n completions it
      is idle again, and one more completion is a no-op. */
  lemma BalancedStartsAndCompletionsClear(m: map<string, int>, key: string, n: nat)
    requires Positive(m) && key !in m
    ensures key !in DoneTimes(InProgressTimes(m, key, n), key, n)
    ensures MarkedDone(DoneTimes(InProgressTimes(m, key, n), key, n), key) == m
  {
    DoneTimesUndoesInProgressTimes(m, key, n);
  }

  /** An arbitrary interleaving of starts (true) and completions (false) of
      operations on one key, applied in order. */
  function Run(m: map<string, int>, key: string, ops: seq<bool>): map<string, int>
    decreases |ops|
  {
    if ops == [] then m
    else
      var before := Run(m, key, ops[..|ops| - 1]);
      if ops[|ops| - 1] then MarkedInProgress(before, key) else MarkedDone(before, key)
  }

  function Starts(ops: seq<bool>): nat
    decreases |ops|
  {
    if ops == [] then 0 else Starts(ops[..|ops| - 1]) + (if ops[|ops| - 1] then 1 else 0)
  }

  function Completions(ops: seq<bool>): nat
    decreases |ops|
  {
    if ops == [] then 0 else Completions(ops[..|ops| - 1]) + (if ops[|ops| - 1] then 0 else 1)
  }

  /** Every completion in `ops` belongs to an operation started before it
      (or already recorded in the starting count). */
  predicate EachCompletionStarted(count: int, ops: seq<bool>) {
    forall j :: 0 <= j <= |ops| ==> Completions(ops[..j]) <= count + Starts(ops[..j])
  }

  /** Under any interleaving in which no operation completes before it starts,
      the count is the starting count plus starts minus completions: it never
      goes negative, the invariant holds throughout and other keys stay put. */
  lemma {:induction false} RunCount(m: map<string, int>, key: string, ops: seq<bool>)
    requires Positive(m)
    requires EachCompletionStarted(Count(m, key), ops)
    ensures Positive(Run(m, key, ops))
    ensures Count(Run(m, key, ops), key) == Count(m, key) + Starts(ops) - Completions(ops)
    ensures forall k :: k != key ==> Count(Run(m, key, ops), k) == Count(m, k)
    decreases |ops|
  {
    if ops != [] {
      var init := ops[..|ops| - 1];
      assert EachCompletionStarted(Count(m, key), init) by {
        forall j | 0 <= j <= |init|
          ensures Completions(init[..j]) <= Count(m, key) + Starts(init[..j])
        {
          assert init[..j] == ops[..j];
        }
      }
      RunCount(m, key, init);
      assert ops[..|ops|] == ops;
    }
  }

  /** Corollary: N starts and N completions in any such order leave an idle
      unit idle. */
  lemma BalancedRunClears(m: map<string, int>, key: string, ops: seq<bool>)
    requires Positive(m) && key !in m
    requires EachCompletionStarted(0, ops)
    requires Starts(ops) == Completions(ops)
    ensures key !in Run(m, key, ops)
  {
    RunCount(m, key, ops);
  }

  /** Under the invariant, a non-empty map is one in which some operation is
      running. */
  lemma NonEmptyMeansRunning(m: map<string, int>)
    requires Positive(m)
    ensures m != map[] <==> exists key :: Count(m, key) >= 1
  {
    if m != map[] {
      var key :| key in m;
      assert Count(m, key) >= 1;
    }
  }

  /** The tracker object the list view shares with its background commands.
      Calls are modelled one at a time; the mutex of the source only makes
      them so. */
  class OperationTracker {
    var inProgress: map<string, int>

    ghost predicate Valid()
      reads this
    {
      Positive(inProgress)
    }

    constructor ()
      ensures inProgress == map[] && Valid()
    {
      inProgress := map[];
    }

    /** Whether any background operation is running. */
    function HasWorkInProgress(): (busy: bool)
      reads this
      ensures busy <==> inProgress != map[]
    {
      |inProgress| > 0
    }

    method MarkInProgress(repository: string, number: string)
      modifies this
      ensures inProgress == MarkedInProgress(old(inProgress), OperationKey(repository, number))
      ensures old(Valid()) ==> Valid()
    {
      var key := OperationKey(repository, number);
      if key !in inProgress {
        inProgress := inProgress[key := 0];
      }
      inProgress := inProgress[key := inProgress[key] + 1];
    }

    method MarkDone(repository: string, number: string)
      modifies this
      ensures inProgress == MarkedDone(old(inProgress), OperationKey(repository, number))
      ensures old(Valid()) ==> Valid()
    {
      var key := OperationKey(repository, number);
      if key !in inProgress {
        return;
      }
      inProgress := inProgress[key := inProgress[key] - 1];
      if inProgress[key] <= 0 {
        inProgress := inProgress - {key};
      }
    }
  }
}
