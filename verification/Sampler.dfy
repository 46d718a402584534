/** Drawing a sample of tasks round-robin across repositories (`evals/read_noise/sample.py`). */
module Sampler {

  datatype Task = Task(repo: string, id: string)

  type Buckets = map<string, seq<Task>>

  function Min(a: int, b: int): int { if a < b then a else b }

  /** `sorted(by_repo)`: every repository once, each with a bucket of its own tasks. */
  predicate Grouping(repos: seq<string>, buckets: Buckets) {
    && (forall i, j :: 0 <= i < j < |repos| ==> repos[i] != repos[j])
    && (forall i :: 0 <= i < |repos| ==> repos[i] in buckets)
    && forall i, n :: 0 <= i < |repos| && 0 <= n < |buckets[repos[i]]| ==> buckets[repos[i]][n].repo == repos[i]
  }

  predicate Counted(repos: seq<string>, taken: map<string, nat>) {
    forall i :: 0 <= i < |repos| ==> repos[i] in taken
  }

  /** How many tasks of a bucket can ever be drawn. */
  function Limit(bucket: seq<Task>, cap: int): (n: nat)
    ensures n <= |bucket| && (cap <= 0 ==> n == 0)
    ensures cap > 0 ==> n <= cap && (n == cap || n == |bucket|)
  {
    if cap <= 0 then 0 else Min(cap, |bucket|)
  }

  /** The sum of the limits of the first `n` repositories. */
  function LimitTotal(repos: seq<string>, buckets: Buckets, cap: int, n: nat): nat
    requires Grouping(repos, buckets) && n <= |repos|
  {
    if n == 0 then 0 else LimitTotal(repos, buckets, cap, n - 1) + Limit(buckets[repos[n - 1]], cap)
  }

  function TakenTotal(repos: seq<string>, taken: map<string, nat>, n: nat): nat
    requires Counted(repos, taken) && n <= |repos|
  {
    if n == 0 then 0 else TakenTotal(repos, taken, n - 1) + taken[repos[n - 1]]
  }

  /** `k` rounds are over and the next one has passed `j` repositories. */
  predicate InRound(repos: seq<string>, shuffled: Buckets, cap: int, taken: map<string, nat>, k: nat, j: nat)
    requires Grouping(repos, shuffled) && Counted(repos, taken)
  {
    forall i :: 0 <= i < |repos| ==>
      taken[repos[i]] == Min(if i < j then k + 1 else k, Limit(shuffled[repos[i]], cap))
  }

  /** Each bucket has lost exactly its last `taken` tasks. */
  predicate Popped(repos: seq<string>, shuffled: Buckets, buckets: Buckets, taken: map<string, nat>)
    requires Grouping(repos, shuffled) && Counted(repos, taken)
  {
    forall i :: 0 <= i < |repos| ==>
      && repos[i] in buckets && taken[repos[i]] <= |shuffled[repos[i]]|
      && buckets[repos[i]] == shuffled[repos[i]][..|shuffled[repos[i]]| - taken[repos[i]]]
  }

  /** The `n`-th task drawn from a bucket that was drawn from the end. */
  function NthDrawn(bucket: seq<Task>, n: nat): Task
    requires n < |bucket|
  {
    bucket[|bucket| - 1 - n]
  }

  /** The sample that the rounds `0..k` and the first `j` repositories of round `k` make up. */
  function Sample(repos: seq<string>, shuffled: Buckets, cap: int, k: nat, j: nat): seq<Task>
    requires Grouping(repos, shuffled) && j <= |repos|
    decreases k, j
  {
    if j > 0 then
      Sample(repos, shuffled, cap, k, j - 1) +
      (if k < Limit(shuffled[repos[j - 1]], cap) then [NthDrawn(shuffled[repos[j - 1]], k)] else [])
    else if k > 0 then Sample(repos, shuffled, cap, k - 1, |repos|)
    else []
  }

  // ----- counts -----

  lemma {:induction false} CountOther(repos: seq<string>, taken: map<string, nat>, n: nat, j: nat, c: nat)
    requires Counted(repos, taken) && n <= j < |repos|
    requires forall i, l :: 0 <= i < l < |repos| ==> repos[i] != repos[l]
    ensures TakenTotal(repos, taken[repos[j] := c], n) == TakenTotal(repos, taken, n)
  {
    if n > 0 {
      CountOther(repos, taken, n - 1, j, c);
    }
  }

  lemma {:induction false} CountOneMore(repos: seq<string>, taken: map<string, nat>, n: nat, j: nat)
    requires Counted(repos, taken) && j < n <= |repos|
    requires forall i, l :: 0 <= i < l < |repos| ==> repos[i] != repos[l]
    ensures TakenTotal(repos, taken[repos[j] := taken[repos[j]] + 1], n) == TakenTotal(repos, taken, n) + 1
  {
    if n == j + 1 {
      CountOther(repos, taken, j, j, taken[repos[j]] + 1);
    } else {
      CountOneMore(repos, taken, n - 1, j);
    }
  }

  lemma {:induction false} NothingTaken(repos: seq<string>, taken: map<string, nat>, n: nat)
    requires Counted(repos, taken) && n <= |repos| && forall i :: 0 <= i < |repos| ==> taken[repos[i]] == 0
    ensures TakenTotal(repos, taken, n) == 0
  {
    if n > 0 {
      NothingTaken(repos, taken, n - 1);
    }
  }

  lemma {:induction false} WithinLimits(repos: seq<string>, shuffled: Buckets, cap: int, taken: map<string, nat>, k: nat, j: nat, n: nat)
    requires Grouping(repos, shuffled) && Counted(repos, taken) && n <= |repos|
    requires InRound(repos, shuffled, cap, taken, k, j)
    ensures TakenTotal(repos, taken, n) <= LimitTotal(repos, shuffled, cap, n)
  {
    if n > 0 {
      WithinLimits(repos, shuffled, cap, taken, k, j, n - 1);
    }
  }

  predicate LimitsReached(repos: seq<string>, shuffled: Buckets, cap: int, k: nat, j: nat)
    requires Grouping(repos, shuffled) && j <= |repos|
  {
    forall i :: 0 <= i < j ==> Limit(shuffled[repos[i]], cap) <= k
  }

  /** A round without progress means every repository is exhausted or capped. */
  lemma {:induction false} NoProgress(repos: seq<string>, shuffled: Buckets, cap: int, taken: map<string, nat>, k: nat, n: nat)
    requires Grouping(repos, shuffled) && Counted(repos, taken) && n <= |repos|
    requires InRound(repos, shuffled, cap, taken, k, 0) && LimitsReached(repos, shuffled, cap, k, |repos|)
    ensures TakenTotal(repos, taken, n) == LimitTotal(repos, shuffled, cap, n)
  {
    if n > 0 {
      NoProgress(repos, shuffled, cap, taken, k, n - 1);
    }
  }

  // ----- the loops -----

  /** Everything the loops maintain. */
  predicate Going(repos: seq<string>, shuffled: Buckets, cap: int, buckets: Buckets, taken: map<string, nat>,
                  picked: seq<Task>, k: nat, j: nat) {
    && Grouping(repos, shuffled) && Counted(repos, taken) && j <= |repos|
    && InRound(repos, shuffled, cap, taken, k, j) && Popped(repos, shuffled, buckets, taken)
    && |picked| == TakenTotal(repos, taken, |repos|)
    && picked == Sample(repos, shuffled, cap, k, j)
  }

  lemma AtTheStart(repos: seq<string>, shuffled: Buckets, cap: int)
    requires Grouping(repos, shuffled)
    ensures Going(repos, shuffled, cap, shuffled, map r | r in shuffled :: 0, [], 0, 0)
  {
    var none: map<string, nat> := map r | r in shuffled :: 0;
    NothingTaken(repos, none, |repos|);
  }

  lemma NextRound(repos: seq<string>, shuffled: Buckets, cap: int, buckets: Buckets, taken: map<string, nat>,
                  picked: seq<Task>, k: nat)
    requires Going(repos, shuffled, cap, buckets, taken, picked, k, |repos|)
    ensures Going(repos, shuffled, cap, buckets, taken, picked, k + 1, 0)
  {
  }

  lemma Skip(repos: seq<string>, shuffled: Buckets, cap: int, buckets: Buckets, taken: map<string, nat>,
             picked: seq<Task>, k: nat, j: nat)
    requires Going(repos, shuffled, cap, buckets, taken, picked, k, j) && j < |repos|
    requires taken[repos[j]] >= cap || buckets[repos[j]] == []
    ensures Limit(shuffled[repos[j]], cap) <= k
    ensures Going(repos, shuffled, cap, buckets, taken, picked, k, j + 1)
  {
    assert Sample(repos, shuffled, cap, k, j) + [] == Sample(repos, shuffled, cap, k, j);
  }

  lemma DrawCounts(repos: seq<string>, shuffled: Buckets, cap: int, buckets: Buckets, taken: map<string, nat>, k: nat, j: nat)
    requires Grouping(repos, shuffled) && Counted(repos, taken) && j < |repos|
    requires InRound(repos, shuffled, cap, taken, k, j) && Popped(repos, shuffled, buckets, taken)
    requires taken[repos[j]] < cap && buckets[repos[j]] != []
    ensures k < Limit(shuffled[repos[j]], cap) && taken[repos[j]] == k
    ensures InRound(repos, shuffled, cap, taken[repos[j] := taken[repos[j]] + 1], k, j + 1)
  {
  }

  lemma DrawPops(repos: seq<string>, shuffled: Buckets, buckets: Buckets, taken: map<string, nat>, j: nat)
    requires Grouping(repos, shuffled) && Counted(repos, taken) && j < |repos|
    requires Popped(repos, shuffled, buckets, taken) && buckets[repos[j]] != []
    ensures var r := repos[j]; var b := buckets[r];
      && Popped(repos, shuffled, buckets[r := b[..|b| - 1]], taken[r := taken[r] + 1])
      && b[|b| - 1] == NthDrawn(shuffled[r], taken[r])
  {
  }

  lemma Draw(repos: seq<string>, shuffled: Buckets, cap: int, buckets: Buckets, taken: map<string, nat>,
             picked: seq<Task>, k: nat, j: nat)
    requires Going(repos, shuffled, cap, buckets, taken, picked, k, j) && j < |repos|
    requires taken[repos[j]] < cap && buckets[repos[j]] != []
    ensures var r := repos[j]; var b := buckets[r];
      Going(repos, shuffled, cap, buckets[r := b[..|b| - 1]], taken[r := taken[r] + 1], picked + [b[|b| - 1]], k, j + 1)
  {
    DrawCounts(repos, shuffled, cap, buckets, taken, k, j);
    DrawPops(repos, shuffled, buckets, taken, j);
    CountOneMore(repos, taken, |repos|, j);
  }

  /** One repository's turn: its last task is drawn unless it is capped or exhausted. */
  method Turn(repos: seq<string>, ghost shuffled: Buckets, cap: int, ghost k: nat, j: nat,
              start: seq<Task>, startBuckets: Buckets, startTaken: map<string, nat>)
    returns (picked: seq<Task>, buckets: Buckets, taken: map<string, nat>, drew: bool)
    requires Going(repos, shuffled, cap, startBuckets, startTaken, start, k, j) && j < |repos|
    ensures Going(repos, shuffled, cap, buckets, taken, picked, k, j + 1)
    ensures |picked| == |start| + (if drew then 1 else 0)
    ensures !drew ==> taken == startTaken && Limit(shuffled[repos[j]], cap) <= k
  {
    picked, buckets, taken := start, startBuckets, startTaken;
    var repo := repos[j];
    drew := !(taken[repo] >= cap || buckets[repo] == []);
    if drew {
      Draw(repos, shuffled, cap, buckets, taken, picked, k, j);
      picked := picked + [buckets[repo][|buckets[repo]| - 1]];
      buckets := buckets[repo := buckets[repo][..|buckets[repo]| - 1]];
      taken := taken[repo := taken[repo] + 1];
    } else {
      Skip(repos, shuffled, cap, buckets, taken, picked, k, j);
    }
  }

  /** One pass over the repositories; it stops early when the sample is full. */
  method Pass(repos: seq<string>, ghost shuffled: Buckets, size: int, cap: int, ghost k: nat,
              start: seq<Task>, startBuckets: Buckets, startTaken: map<string, nat>)
    returns (picked: seq<Task>, buckets: Buckets, taken: map<string, nat>, progressed: bool, ghost j: nat)
    requires Going(repos, shuffled, cap, startBuckets, startTaken, start, k, 0) && |start| < size
    ensures Going(repos, shuffled, cap, buckets, taken, picked, k, j)
    ensures |start| <= |picked| <= size && (progressed <==> |start| < |picked|)
    ensures |picked| == size || j == |repos|
    ensures !progressed ==> taken == startTaken && LimitsReached(repos, shuffled, cap, k, |repos|)
  {
    picked, buckets, taken, progressed := start, startBuckets, startTaken, false;
    var i := 0;
    while i < |repos| && |picked| < size
      invariant Going(repos, shuffled, cap, buckets, taken, picked, k, i)
      invariant |start| <= |picked| <= size && (progressed <==> |start| < |picked|)
      invariant !progressed ==> taken == startTaken && LimitsReached(repos, shuffled, cap, k, i)
    {
      var drew;
      picked, buckets, taken, drew := Turn(repos, shuffled, cap, k, i, picked, buckets, taken);
      progressed := progressed || drew;
      i := i + 1;
    }
    j := i;
  }

  /** `stratify`; `shuffled` is whatever the shuffle made of the buckets. The sample is that of
      some number of rounds, as long as the size, the caps and the buckets allow. */
  method Stratify(repos: seq<string>, shuffled: Buckets, size: int, cap: int)
    returns (picked: seq<Task>, ghost k: nat, ghost j: nat)
    requires Grouping(repos, shuffled)
    ensures j <= |repos| && picked == Sample(repos, shuffled, cap, k, j)
    ensures |picked| == Min(if size > 0 then size else 0, LimitTotal(repos, shuffled, cap, |repos|))
  {
    AtTheStart(repos, shuffled, cap);
    picked, k, j := [], 0, 0;
    var buckets, taken: map<string, nat> := shuffled, map r | r in shuffled :: 0;
    var progressed := true;
    while |picked| < size && progressed
      invariant Going(repos, shuffled, cap, buckets, taken, picked, k, j)
      invariant |picked| <= if size > 0 then size else 0
      invariant |picked| < size && progressed ==> j == 0
      invariant !progressed ==> |picked| == LimitTotal(repos, shuffled, cap, |repos|)
      decreases size - |picked|, progressed
    {
      ghost var before := taken;
      picked, buckets, taken, progressed, j := Pass(repos, shuffled, size, cap, k, picked, buckets, taken);
      if !progressed {
        NoProgress(repos, shuffled, cap, before, k, |repos|);
      } else if j == |repos| {
        NextRound(repos, shuffled, cap, buckets, taken, picked, k);
        k, j := k + 1, 0;
      }
    }
    WithinLimits(repos, shuffled, cap, taken, k, j, |repos|);
  }

  // ----- what a sample of rounds is -----

  /** The tasks drawn from one repository, in the order they were drawn. */
  function DrawnFrom(picked: seq<Task>, repo: string): seq<Task> {
    if picked == [] then []
    else DrawnFrom(picked[..|picked| - 1], repo) +
         (if picked[|picked| - 1].repo == repo then [picked[|picked| - 1]] else [])
  }

  /** The last `n` tasks of a bucket, last first. */
  function FromTheEnd(bucket: seq<Task>, n: nat): seq<Task>
    requires n <= |bucket|
  {
    seq(n, i requires 0 <= i < n => NthDrawn(bucket, i))
  }

  lemma DrawnSnoc(picked: seq<Task>, t: Task, repo: string)
    ensures DrawnFrom(picked + [t], repo) == if t.repo == repo then DrawnFrom(picked, repo) + [t] else DrawnFrom(picked, repo)
  {
    assert (picked + [t])[..|picked|] == picked;
  }

  function DrawnCount(bucket: seq<Task>, cap: int, k: nat, j: nat, i: nat): nat {
    Min(if i < j then k + 1 else k, Limit(bucket, cap))
  }

  lemma CountAfterPassing(bucket: seq<Task>, cap: int, k: nat, j: nat, i: nat)
    ensures FromTheEnd(bucket, DrawnCount(bucket, cap, k, j, i)) +
            (if i == j && k < Limit(bucket, cap) then [NthDrawn(bucket, k)] else [])
            == FromTheEnd(bucket, DrawnCount(bucket, cap, k, j + 1, i))
  {
  }

  /** Passing repository `j` changes what is drawn from it and from no other. */
  lemma PassingOne(repos: seq<string>, shuffled: Buckets, cap: int, k: nat, j: nat, i: nat)
    requires Grouping(repos, shuffled) && j < |repos| && i < |repos|
    ensures DrawnFrom(Sample(repos, shuffled, cap, k, j + 1), repos[i]) ==
            DrawnFrom(Sample(repos, shuffled, cap, k, j), repos[i]) +
            (if i == j && k < Limit(shuffled[repos[j]], cap) then [NthDrawn(shuffled[repos[j]], k)] else [])
  {
    var before, bucket := Sample(repos, shuffled, cap, k, j), shuffled[repos[j]];
    if k < Limit(bucket, cap) {
      DrawnSnoc(before, NthDrawn(bucket, k), repos[i]);
    } else {
      assert before + [] == before;
    }
  }

  /** What a sample holds of the `i`-th repository. */
  lemma {:induction false} SampleOfRepo(repos: seq<string>, shuffled: Buckets, cap: int, k: nat, j: nat, i: nat)
    requires Grouping(repos, shuffled) && j <= |repos| && i < |repos|
    ensures DrawnFrom(Sample(repos, shuffled, cap, k, j), repos[i])
            == FromTheEnd(shuffled[repos[i]], DrawnCount(shuffled[repos[i]], cap, k, j, i))
    decreases k, j
  {
    if j > 0 {
      SampleOfRepo(repos, shuffled, cap, k, j - 1, i);
      PassingOne(repos, shuffled, cap, k, j - 1, i);
      CountAfterPassing(shuffled[repos[i]], cap, k, j - 1, i);
    } else if k > 0 {
      SampleOfRepo(repos, shuffled, cap, k - 1, |repos|, i);
    }
  }

  lemma SampleCount(repos: seq<string>, shuffled: Buckets, cap: int, k: nat, j: nat, i: nat)
    requires Grouping(repos, shuffled) && j <= |repos| && i < |repos|
    ensures var drawn := DrawnFrom(Sample(repos, shuffled, cap, k, j), repos[i]);
      && |drawn| == DrawnCount(shuffled[repos[i]], cap, k, j, i)
      && drawn == FromTheEnd(shuffled[repos[i]], |drawn|)
  {
    SampleOfRepo(repos, shuffled, cap, k, j, i);
  }

  /** Fairness: no repository exceeds its cap, and none falls more than one task behind another
      unless it is capped or exhausted; what is drawn from a repository are the last tasks of its
      bucket, each position once. */
  lemma SampleIsFair(repos: seq<string>, shuffled: Buckets, cap: int, k: nat, j: nat, r: nat, s: nat)
    requires Grouping(repos, shuffled) && j <= |repos| && r < |repos| && s < |repos|
    ensures var picked := Sample(repos, shuffled, cap, k, j);
      var fromR, fromS := DrawnFrom(picked, repos[r]), DrawnFrom(picked, repos[s]);
      && |fromR| <= Limit(shuffled[repos[r]], cap)
      && |fromR| >= Min(|fromS| - 1, Limit(shuffled[repos[r]], cap))
      && (|fromR| < |fromS| - 1 ==> |fromR| == cap || |fromR| == |shuffled[repos[r]]|)
      && fromR == FromTheEnd(shuffled[repos[r]], |fromR|)
  {
    SampleCount(repos, shuffled, cap, k, j, r);
    SampleCount(repos, shuffled, cap, k, j, s);
  }

  lemma {:induction false} Occurrences(picked: seq<Task>, t: Task)
    ensures multiset(DrawnFrom(picked, t.repo))[t] == multiset(picked)[t]
  {
    if picked != [] {
      Occurrences(picked[..|picked| - 1], t);
      assert picked == picked[..|picked| - 1] + [picked[|picked| - 1]];
    }
  }

  lemma {:induction false} OffTheEnd(bucket: seq<Task>, n: nat)
    requires n <= |bucket|
    ensures multiset(FromTheEnd(bucket, n)) == multiset(bucket[|bucket| - n..])
  {
    if n > 0 {
      OffTheEnd(bucket, n - 1);
      assert FromTheEnd(bucket, n) == FromTheEnd(bucket, n - 1) + [NthDrawn(bucket, n - 1)];
      assert bucket[|bucket| - n..] == [bucket[|bucket| - n]] + bucket[|bucket| - n + 1..];
    }
  }

  lemma PartOfBucket(bucket: seq<Task>, n: nat, t: Task)
    requires n <= |bucket|
    ensures multiset(FromTheEnd(bucket, n))[t] <= multiset(bucket)[t]
  {
    OffTheEnd(bucket, n);
    assert bucket == bucket[..|bucket| - n] + bucket[|bucket| - n..];
  }

  /** No task is drawn more often than it was offered; in particular, at most once. */
  lemma DrawnAtMostOnce(repos: seq<string>, shuffled: Buckets, cap: int, k: nat, j: nat, i: nat, t: Task)
    requires Grouping(repos, shuffled) && j <= |repos| && i < |repos| && t.repo == repos[i]
    ensures multiset(Sample(repos, shuffled, cap, k, j))[t] <= multiset(shuffled[repos[i]])[t]
  {
    SampleOfRepo(repos, shuffled, cap, k, j, i);
    Occurrences(Sample(repos, shuffled, cap, k, j), t);
    PartOfBucket(shuffled[repos[i]], DrawnCount(shuffled[repos[i]], cap, k, j, i), t);
  }
}
