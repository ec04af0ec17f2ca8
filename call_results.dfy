/**
 * The outcomes of hook calls, as the feature tester consumes them.
 *
 * CallResults lies outside the modelled component; what follows is the model's
 * assumption about it: an ordered collection of individual call results,
 * a "has exceptions" test that scans it front to back, and a merge that keeps the
 * results of its first argument before those of its second.
 */
module CallResults {

  /** The outcome of one hook call: it returned, or it threw and the exception was captured. */
  datatype CallResult = Success | Failure(exception: string)

  /** Call results in the order the calls were made. */
  type CallResults = seq<CallResult>

  /** True when some call threw; scans the results front to back and stops at the first failure. */
  predicate HasExceptions(results: CallResults)
  {
    results != [] && (results[0].Failure? || HasExceptions(results[1..]))
  }

  /** A new collection holding the results of `first` followed by those of `second`. */
  function Merge(first: CallResults, second: CallResults): CallResults
  {
    first + second
  }

  /** The scan agrees with its reference definition: some result is a failure. */
  lemma {:induction false} HasExceptionsIffSomeFailure(results: CallResults)
    ensures HasExceptions(results) <==> exists i :: 0 <= i < |results| && results[i].Failure?
  {
    if results != [] {
      var rest := results[1..];
      HasExceptionsIffSomeFailure(rest);
      if HasExceptions(rest) {
        var i :| 0 <= i < |rest| && rest[i].Failure?;
        assert results[i + 1] == rest[i];
      }
      if i :| 0 <= i < |results| && results[i].Failure? {
        if i > 0 {
          assert rest[i - 1] == results[i];
        }
      }
    }
  }

  /** Merging keeps both inputs intact and in order: first the results of `first`, then those of `second`. */
  lemma MergeKeepsOrder(first: CallResults, second: CallResults)
    ensures |Merge(first, second)| == |first| + |second|
    ensures Merge(first, second)[..|first|] == first
    ensures Merge(first, second)[|first|..] == second
  {
  }

  /** A merged collection has exceptions exactly when one of its two parts has. */
  lemma {:induction false} MergeHasExceptions(first: CallResults, second: CallResults)
    ensures HasExceptions(Merge(first, second)) <==> HasExceptions(first) || HasExceptions(second)
  {
    if first != [] {
      assert Merge(first, second)[1..] == Merge(first[1..], second);
      MergeHasExceptions(first[1..], second);
    } else {
      assert Merge(first, second) == second;
    }
  }
}
