/** The reader's error record and the two rules that write it: a type error
    keeps the left-most failing argument, a custom error is written only
    into a clean record. */
module Errors {

  const BadArgument: string := "Bad argument"
  const BadUsage: string := "Bad usage"

  /** The error part of the reader's state: whether an error is recorded,
      the argument index it is about, the expected type name, the category,
      and the custom message that overrides the structured one. */
  datatype ErrorState = ErrorState(
    error: bool,
    index: int,
    expectedType: string,
    category: string,
    hasCustomMessage: bool,
    customMessage: string)

  /** The record a fresh reader starts with. */
  const NoError := ErrorState(false, 0, "", "", false, "")

  /** Whenever no error is flagged, the record is the fresh one: nothing but
      the two rules below writes it, and each of them flags an error. */
  ghost predicate Consistent(e: ErrorState) {
    !e.error ==> e == NoError
  }

  /** SetTypeError: records when there is no error yet or when the new index
      is at or before the recorded one; an equal index overwrites. */
  function TypeError(e: ErrorState, expected: string, at: int): (r: ErrorState)
    ensures r.error
    ensures Consistent(e) ==> Consistent(r)
    ensures r.index == if e.error && e.index < at then e.index else at
    ensures e.error && e.index < at ==> r == e
    ensures !(e.error && e.index < at) ==>
      && r.expectedType == expected
      && r.category == BadArgument
      && r.hasCustomMessage == e.hasCustomMessage
      && r.customMessage == e.customMessage
  {
    if !e.error || at <= e.index then
      e.(error := true, index := at, expectedType := expected, category := BadArgument)
    else
      e
  }

  /** SetCustomError: records only into a record without an error, and then
      leaves the index where it was. */
  function CustomError(e: ErrorState, reason: string, category: string): (r: ErrorState)
    ensures r.error
    ensures e.error ==> r == e
    ensures !e.error ==>
      && r.hasCustomMessage && r.customMessage == reason && r.category == category
      && r.index == e.index && r.expectedType == e.expectedType
  {
    if !e.error then
      e.(error := true, category := category, hasCustomMessage := true, customMessage := reason)
    else
      e
  }

  /** One failed read: the expected type it names and the index it is at. */
  datatype Failure = Failure(expected: string, at: int)

  /** The record after SetTypeError for each failure in turn, first to last. */
  function ApplyTypeErrors(e: ErrorState, fails: seq<Failure>): ErrorState
    decreases |fails|
  {
    if fails == [] then e
    else
      var last := fails[|fails| - 1];
      TypeError(ApplyTypeErrors(e, fails[..|fails| - 1]), last.expected, last.at)
  }

  /** Whatever order the failures come in, a fresh record ends up naming the
      left-most one; among failures at that same index, the last one wins. */
  lemma {:induction false} LeftmostFailureReported(fails: seq<Failure>)
    requires |fails| > 0
    ensures var r := ApplyTypeErrors(NoError, fails);
      && r.error
      && r.category == BadArgument
      && (forall j :: 0 <= j < |fails| ==> r.index <= fails[j].at)
      && (exists k :: 0 <= k < |fails| && r.index == fails[k].at && r.expectedType == fails[k].expected
           && forall j :: k < j < |fails| ==> r.index < fails[j].at)
    decreases |fails|
  {
    var n := |fails|;
    var f := fails[n - 1];
    var r := ApplyTypeErrors(NoError, fails);
    if n == 1 {
      assert fails[..0] == [];
      assert r.index == fails[0].at && r.expectedType == fails[0].expected;
    } else {
      var init := fails[..n - 1];
      LeftmostFailureReported(init);
      var p := ApplyTypeErrors(NoError, init);
      assert r == TypeError(p, f.expected, f.at);
      if f.at <= p.index {
        assert r.index == fails[n - 1].at && r.expectedType == fails[n - 1].expected;
        forall j | 0 <= j < n ensures r.index <= fails[j].at {
          if j < n - 1 { assert fails[j] == init[j]; }
        }
      } else {
        var k :| 0 <= k < |init| && p.index == init[k].at && p.expectedType == init[k].expected
                 && forall j :: k < j < |init| ==> p.index < init[j].at;
        assert fails[k] == init[k];
        forall j | k < j < n ensures r.index < fails[j].at {
          if j < n - 1 { assert fails[j] == init[j]; }
        }
        forall j | 0 <= j < n ensures r.index <= fails[j].at {
          if j < n - 1 { assert fails[j] == init[j]; }
        }
      }
    }
  }

  /** A recorded error is never displaced by type errors at later indices. */
  lemma {:induction false} LaterFailuresKeepError(e: ErrorState, fails: seq<Failure>)
    requires e.error
    requires forall j :: 0 <= j < |fails| ==> e.index < fails[j].at
    ensures ApplyTypeErrors(e, fails) == e
    decreases |fails|
  {
    if fails != [] {
      var init := fails[..|fails| - 1];
      assert forall j :: 0 <= j < |init| ==> init[j] == fails[j];
      LaterFailuresKeepError(e, init);
    }
  }

  /** A custom error set on a fresh record keeps the fresh index 0, so no
      type error at a positive index ever displaces it. */
  lemma {:induction false} CustomErrorNeverDisplaced(reason: string, category: string, fails: seq<Failure>)
    requires forall j :: 0 <= j < |fails| ==> fails[j].at > 0
    ensures var c := CustomError(NoError, reason, category);
      ApplyTypeErrors(c, fails) == c && c.hasCustomMessage && c.index == 0
  {
    LaterFailuresKeepError(CustomError(NoError, reason, category), fails);
  }
}
