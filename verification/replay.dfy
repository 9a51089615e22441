/** A sequence of wrapper calls against one cache, with the clock and the source
    files held still between the calls. */
module Replay {
  import opened Wrappers
  import opened CacheKey
  import opened CachingAnalyser
  import opened CacheProperties

  /** One call of a wrapper: the operation and the file it is asked about. */
  datatype Request = Request(filename: string, op: Op)

  /** What serving the first `k` requests has produced: their results in order,
      the cache afterwards, and how many of them reached the analyser. */
  datatype RunState<V> = RunState(results: seq<Result<V, AnalysisError>>, cache: Cache<V>, delegations: nat)

  /** Reference definition of a run: serving `requests` in order, each against
      the cache the previous one left. Serving requests never moves the clock or
      touches a source file. */
  function Run<V>(c: Cache<V>, requests: seq<Request>, analyse: Analyser<V>, k: nat): (st: RunState<V>)
    requires k <= |requests|
    ensures |st.results| == k && st.delegations <= k
    ensures st.cache.now == c.now && st.cache.sourceMtime == c.sourceMtime
    ensures st.cache.directory == c.directory && st.cache.className == c.className
    decreases k
  {
    if k == 0 then RunState([], c, 0)
    else
      var prev := Run(c, requests, analyse, k - 1);
      var r := requests[k - 1];
      var s := CachedCall(prev.cache, r.filename, r.op, analyse);
      RunState(prev.results + [s.result], s.cache, prev.delegations + (if s.delegated then 1 else 0))
  }

  /** The cache as the `k`-th request finds it. */
  function CacheBefore<V>(c: Cache<V>, requests: seq<Request>, analyse: Analyser<V>, k: nat): Cache<V>
    requires k <= |requests|
  {
    Run(c, requests, analyse, k).cache
  }

  /** The step that serves the `k`-th request. */
  function StepAt<V>(c: Cache<V>, requests: seq<Request>, analyse: Analyser<V>, k: nat): Step<V>
    requires k < |requests|
  {
    CachedCall(CacheBefore(c, requests, analyse, k), requests[k].filename, requests[k].op, analyse)
  }

  /** Request `k - 1` extends the run by the step that serves it. */
  lemma RunStep<V>(c: Cache<V>, requests: seq<Request>, analyse: Analyser<V>, k: nat)
    requires 0 < k <= |requests|
    ensures var prev, s := Run(c, requests, analyse, k - 1), StepAt(c, requests, analyse, k - 1);
            Run(c, requests, analyse, k)
              == RunState(prev.results + [s.result], s.cache, prev.delegations + (if s.delegated then 1 else 0))
  {
  }

  /** Result `i` of a run is what the step serving request `i` returns. */
  lemma {:induction false} ResultAt<V>(c: Cache<V>, requests: seq<Request>, analyse: Analyser<V>, k: nat, i: nat)
    requires i < k <= |requests|
    ensures Run(c, requests, analyse, k).results[i] == StepAt(c, requests, analyse, i).result
    decreases k
  {
    if i < k - 1 {
      ResultAt(c, requests, analyse, k - 1, i);
    }
  }

  /** The entry for request `r` is usable and holds the value `v`. */
  ghost predicate Holds<V>(c: Cache<V>, r: Request, v: Result<V, AnalysisError>)
  {
    Valid(c, r.filename, r.op) && v == Success(c.files[PathOf(c, r.filename, r.op)].value)
  }

  /** A call that returns a value for a settled file leaves an entry holding it. */
  lemma SuccessfulCallHolds<V>(c: Cache<V>, r: Request, analyse: Analyser<V>)
    requires SettledAt(c, r.filename)
    requires CachedCall(c, r.filename, r.op, analyse).result.Success?
    ensures var s := CachedCall(c, r.filename, r.op, analyse);
            Holds(s.cache, r, s.result)
  {
  }

  /** A call for any request keeps an entry that holds a value holding it: the
      same request is a hit, any other request writes elsewhere. */
  lemma CallKeepsHeldEntry<V>(c: Cache<V>, q: Request, analyse: Analyser<V>, r: Request, v: Result<V, AnalysisError>)
    requires Holds(c, r, v)
    ensures Holds(CachedCall(c, q.filename, q.op, analyse).cache, r, v)
  {
    if q != r {
      KeysIndependent(c, q.filename, q.op, r.filename, r.op, analyse);
    }
  }

  /** An entry that holds a value before request `i` still holds it before any
      later request `k`. */
  lemma {:induction false} HeldEntryPersists<V>(
    c: Cache<V>, requests: seq<Request>, analyse: Analyser<V>, i: nat, k: nat, r: Request, v: Result<V, AnalysisError>)
    requires i <= k <= |requests|
    requires Holds(CacheBefore(c, requests, analyse, i), r, v)
    ensures Holds(CacheBefore(c, requests, analyse, k), r, v)
    decreases k
  {
    if k > i {
      HeldEntryPersists(c, requests, analyse, i, k - 1, r, v);
      CallKeepsHeldEntry(CacheBefore(c, requests, analyse, k - 1), requests[k - 1], analyse, r, v);
    }
  }

  /** Memoization over a run: once a request has returned a value, every later
      request for the same file and operation is a hit that returns the same
      value, whatever calls for other files and operations came in between. */
  lemma RunMemoizes<V>(c: Cache<V>, requests: seq<Request>, analyse: Analyser<V>, i: nat, j: nat)
    requires i < j < |requests| && requests[i] == requests[j]
    requires SettledAt(c, requests[i].filename)
    requires StepAt(c, requests, analyse, i).result.Success?
    ensures !StepAt(c, requests, analyse, j).delegated
    ensures StepAt(c, requests, analyse, j).result == StepAt(c, requests, analyse, i).result
  {
    var r := requests[i];
    var v := StepAt(c, requests, analyse, i).result;
    SuccessfulCallHolds(CacheBefore(c, requests, analyse, i), r, analyse);
    HeldEntryPersists(c, requests, analyse, i + 1, j, r, v);
  }

  /** Whatever the cache now holds for request `r`, a call for it returns `v`:
      a usable entry holds `v`, and without one the analyser answers `v`. */
  ghost predicate Determines<V>(c: Cache<V>, r: Request, analyse: Analyser<V>, v: Result<V, AnalysisError>)
  {
    && (Valid(c, r.filename, r.op) ==> v == Success(c.files[PathOf(c, r.filename, r.op)].value))
    && (!Valid(c, r.filename, r.op) ==> v == analyse(r.op, r.filename))
  }

  /** A call for any request keeps request `r` determined: a call for `r` itself
      either changes nothing or stores what the analyser answers, a call for
      another request writes elsewhere. */
  lemma CallKeepsDetermined<V>(c: Cache<V>, q: Request, analyse: Analyser<V>, r: Request, v: Result<V, AnalysisError>)
    requires Determines(c, r, analyse, v)
    ensures Determines(CachedCall(c, q.filename, q.op, analyse).cache, r, analyse, v)
  {
    if q != r {
      KeysIndependent(c, q.filename, q.op, r.filename, r.op, analyse);
    }
  }

  /** A request determined before request `i` stays determined before any later
      request `k`. */
  lemma {:induction false} DeterminedPersists<V>(
    c: Cache<V>, requests: seq<Request>, analyse: Analyser<V>, i: nat, k: nat, r: Request, v: Result<V, AnalysisError>)
    requires i <= k <= |requests|
    requires Determines(CacheBefore(c, requests, analyse, i), r, analyse, v)
    ensures Determines(CacheBefore(c, requests, analyse, k), r, analyse, v)
    decreases k
  {
    if k > i {
      DeterminedPersists(c, requests, analyse, i, k - 1, r, v);
      CallKeepsDetermined(CacheBefore(c, requests, analyse, k - 1), requests[k - 1], analyse, r, v);
    }
  }

  /** Repeated requests agree, in any run: a later request for the same file and
      operation returns what the earlier one returned, a hit or a miss, a value
      or a failure, whatever the source times and whatever came in between. */
  lemma RepeatedRequestsAgree<V>(c: Cache<V>, requests: seq<Request>, analyse: Analyser<V>, i: nat, j: nat)
    requires i < j < |requests| && requests[i] == requests[j]
    ensures StepAt(c, requests, analyse, j).result == StepAt(c, requests, analyse, i).result
  {
    var v := StepAt(c, requests, analyse, i).result;
    DeterminedPersists(c, requests, analyse, i, j, requests[i], v);
  }

  /** With an analyser that succeeds on a request, that request returns a value. */
  lemma StepSucceeds<V>(c: Cache<V>, requests: seq<Request>, analyse: Analyser<V>, k: nat)
    requires k < |requests|
    requires analyse(requests[k].op, requests[k].filename).Success?
    ensures StepAt(c, requests, analyse, k).result.Success?
  {
  }

  /** The distinct requests of a sequence. */
  function Distinct(requests: seq<Request>): set<Request>
    decreases |requests|
  {
    if requests == [] then {}
    else Distinct(requests[..|requests| - 1]) + {requests[|requests| - 1]}
  }

  /** `Distinct` holds exactly the requests of the sequence. */
  lemma {:induction false} DistinctMembers(requests: seq<Request>)
    ensures forall r :: r in Distinct(requests) <==> r in requests
    decreases |requests|
  {
    if requests != [] {
      var init := requests[..|requests| - 1];
      DistinctMembers(init);
      assert requests == init + [requests[|requests| - 1]];
    }
  }

  /** Extending a sequence by a request it does not contain adds one distinct
      request; by one it contains, none. */
  lemma DistinctRequestsGrow(prefix: seq<Request>, r: Request)
    ensures |Distinct(prefix + [r])| == if r in prefix then |Distinct(prefix)| else |Distinct(prefix)| + 1
  {
    assert (prefix + [r])[..|prefix|] == prefix;
    assert Distinct(prefix + [r]) == Distinct(prefix) + {r};
    DistinctMembers(prefix);
  }

  /** The prefix of length `k` is the prefix of length `k - 1` and element `k - 1`. */
  lemma PrefixGrows<T>(s: seq<T>, k: nat)
    requires 0 < k <= |s|
    ensures s[..k] == s[..k - 1] + [s[k - 1]]
  {
  }

  /** Every requested source file is settled and the analyser succeeds on every
      request: the run in which each distinct request is computed once. */
  predicate SettledRun<V>(c: Cache<V>, requests: seq<Request>, analyse: Analyser<V>)
  {
    forall i :: 0 <= i < |requests| ==>
      SettledAt(c, requests[i].filename) && analyse(requests[i].op, requests[i].filename).Success?
  }

  /** When request `k`'s file is settled and the analyser succeeds on it, the
      request reaches the analyser only if it has not been seen before. */
  lemma DelegatesOnlyNewRequests<V>(c: Cache<V>, requests: seq<Request>, analyse: Analyser<V>, k: nat)
    requires k < |requests|
    requires SettledAt(c, requests[k].filename) && analyse(requests[k].op, requests[k].filename).Success?
    ensures StepAt(c, requests, analyse, k).delegated ==> requests[k] !in requests[..k]
  {
    if requests[k] in requests[..k] {
      var i :| 0 <= i < k && requests[..k][i] == requests[k];
      StepSucceeds(c, requests, analyse, i);
      RunMemoizes(c, requests, analyse, i, k);
    }
  }

  /** Under the same conditions for request `k - 1`, serving it adds no more to
      the count of delegations than to the count of distinct requests served. */
  lemma DelegationAddsDistinct<V>(c: Cache<V>, requests: seq<Request>, analyse: Analyser<V>, k: nat)
    requires 0 < k <= |requests|
    requires SettledAt(c, requests[k - 1].filename) && analyse(requests[k - 1].op, requests[k - 1].filename).Success?
    ensures Run(c, requests, analyse, k).delegations + |Distinct(requests[..k - 1])|
         <= Run(c, requests, analyse, k - 1).delegations + |Distinct(requests[..k])|
  {
    RunStep(c, requests, analyse, k);
    DelegatesOnlyNewRequests(c, requests, analyse, k - 1);
    DistinctRequestsGrow(requests[..k - 1], requests[k - 1]);
    PrefixGrows(requests, k);
  }

  /** Equal requests anywhere in a run get equal results. */
  lemma EqualRequestsEqualResults<V>(c: Cache<V>, requests: seq<Request>, analyse: Analyser<V>)
    ensures var results := Run(c, requests, analyse, |requests|).results;
            forall i, j :: 0 <= i < j < |requests| && requests[i] == requests[j] ==> results[i] == results[j]
  {
    var results := Run(c, requests, analyse, |requests|).results;
    forall i, j | 0 <= i < j < |requests| && requests[i] == requests[j]
      ensures results[i] == results[j]
    {
      RepeatedRequestsAgree(c, requests, analyse, i, j);
      ResultAt(c, requests, analyse, |requests|, i);
      ResultAt(c, requests, analyse, |requests|, j);
    }
  }

  /** A count that grows no faster than a bound, and starts within it, stays
      within it. */
  lemma BoundedByIncrements(count: int, countBefore: int, bound: int, boundBefore: int)
    requires countBefore <= boundBefore
    requires count + boundBefore <= countBefore + bound
    ensures count <= bound
  {
  }

  /** In a settled run the analyser is reached at most once per distinct request. */
  lemma {:induction false} DelegationsBound<V>(c: Cache<V>, requests: seq<Request>, analyse: Analyser<V>, k: nat)
    requires k <= |requests|
    requires SettledRun(c, requests, analyse)
    ensures Run(c, requests, analyse, k).delegations <= |Distinct(requests[..k])|
    decreases k
  {
    if k > 0 {
      DelegationsBound(c, requests, analyse, k - 1);
      DelegationAddsDistinct(c, requests, analyse, k);
      BoundedByIncrements(
        Run(c, requests, analyse, k).delegations, Run(c, requests, analyse, k - 1).delegations,
        |Distinct(requests[..k])|, |Distinct(requests[..k - 1])|);
    }
  }

  /** The whole of a settled run reaches the analyser at most once per distinct
      request. */
  lemma SettledRunBound<V>(c: Cache<V>, requests: seq<Request>, analyse: Analyser<V>)
    ensures SettledRun(c, requests, analyse) ==> Run(c, requests, analyse, |requests|).delegations <= |Distinct(requests)|
  {
    if SettledRun(c, requests, analyse) {
      DelegationsBound(c, requests, analyse, |requests|);
      assert requests[..|requests|] == requests;
    }
  }

  /** Serves `requests` in order and counts the calls that reached the analyser:
      the outcome is the reference run's. Equal requests get equal results. In
      a settled run the cache computes each distinct request at most once:
      there are no more delegations than distinct requests. */
  method ServeAll<V>(c: Cache<V>, requests: seq<Request>, analyse: Analyser<V>)
    returns (results: seq<Result<V, AnalysisError>>, final: Cache<V>, delegations: nat)
    ensures RunState(results, final, delegations) == Run(c, requests, analyse, |requests|)
    ensures forall i, j :: 0 <= i < j < |requests| && requests[i] == requests[j] ==> results[i] == results[j]
    ensures SettledRun(c, requests, analyse) ==> delegations <= |Distinct(requests)|
  {
    final, results, delegations := c, [], 0;
    var k := 0;
    while k < |requests|
      invariant k <= |requests|
      invariant RunState(results, final, delegations) == Run(c, requests, analyse, k)
    {
      var s := CachedCall(final, requests[k].filename, requests[k].op, analyse);
      if s.delegated {
        delegations := delegations + 1;
      }
      results := results + [s.result];
      final := s.cache;
      k := k + 1;
    }
    EqualRequestsEqualResults(c, requests, analyse);
    SettledRunBound(c, requests, analyse);
  }
}
