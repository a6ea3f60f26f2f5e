/**
 * In-order verification: an ordering context keeps a cursor on the last call
 * it matched; each in-order verification for `min` calls scans only the calls
 * numbered after the cursor and, on success, moves the cursor to the min-th
 * matching call. A failure raises a VerificationError and moves nothing.
 */
module InOrderVerify {
  import opened Wrappers
  import opened JavaTypes
  import opened Mock
  import Formatting

  /** The cursor's initial position: a sentinel call numbered 0, before every real call. */
  const StartOfTime: MethodCall := MethodCall(0, Method("", "", [], VoidType), [], "", "")

  /** The ordering context's cursor (InOrder). */
  class InOrder {
    var current: MethodCall

    constructor ()
      ensures current == StartOfTime
    {
      current := StartOfTime;
    }
  }

  /** The calls numbered after `after` that the matcher accepts, in ledger order. */
  function MatchesAfter(calls: seq<MethodCall>, after: int, matcher: MethodMatcher): (r: seq<MethodCall>)
    ensures |r| <= |calls|
  {
    if calls == [] then []
    else
      var last := calls[|calls| - 1];
      MatchesAfter(calls[..|calls| - 1], after, matcher) + (if last.number > after && matcher.accepts(last) then [last] else [])
  }

  /** The failure text, with the " after mock." part only when the cursor has moved off the start. */
  function FailureMessage(min: int, matcher: MethodMatcher, count: int, lastCall: MethodCall): (r: string)
    ensures var head := "Expected " + Formatting.Calls(min) + " to mock." + matcher.text + " but only got " + Formatting.Calls(count);
      head <= r && (lastCall.number > 0 <==> r != head)
      && (lastCall.number > 0 ==> r[|head|..] == " after mock." + lastCall.text + "\n\t\t" + lastCall.stackTrace)
  {
    "Expected " + Formatting.Calls(min) + " to mock." + matcher.text + " but only got " + Formatting.Calls(count)
      + (if lastCall.number > 0 then " after mock." + lastCall.text + "\n\t\t" + lastCall.stackTrace else "")
  }

  /** One in-order verification as a transition: its outcome and the cursor afterwards. */
  function Verify(calls: seq<MethodCall>, cursor: MethodCall, min: int, matcher: MethodMatcher): (r: (Outcome<Error>, MethodCall))
    ensures min <= 0 ==> r == (Pass, cursor)
    ensures r.0.Pass? <==> min <= 0 || |MatchesAfter(calls, cursor.number, matcher)| >= min
    ensures r.0.Pass? && min > 0 ==> r.1 in calls && r.1.number > cursor.number && matcher.accepts(r.1)
    ensures r.0.Pass? && min > 0 ==> r.1 == MatchesAfter(calls, cursor.number, matcher)[min - 1]
    ensures r.0.Fail? ==> r.1 == cursor && r.0.error.VerificationError?
  {
    if min <= 0 then (Pass, cursor)
    else
      var found := MatchesAfter(calls, cursor.number, matcher);
      if |found| >= min then
        MatchesAfterSound(calls, cursor.number, matcher);
        assert found[min - 1] in found;
        (Pass, found[min - 1])
      else (Fail(VerificationError(FailureMessage(min, matcher, |found|, cursor))), cursor)
  }

  /** InOrderVerifyHandler: an in-order verification of `min` calls on one mock's ledger. */
  class InOrderVerifyHandler {
    const inOrder: InOrder
    const data: MockData
    const min: int

    constructor (inOrder: InOrder, data: MockData, min: int)
      ensures this.inOrder == inOrder && this.data == data && this.min == min
    {
      this.inOrder := inOrder;
      this.data := data;
      this.min := min;
    }

    /** `match`: scan after the cursor; move it on the min-th match, or fail and leave it. */
    method Match(matcher: MethodMatcher) returns (r: Outcome<Error>)
      modifies inOrder
      ensures (r, inOrder.current) == Verify(data.calls, old(inOrder.current), min, matcher)
      ensures r.Fail? ==> r.error == VerificationError(
        FailureMessage(min, matcher, |MatchesAfter(data.calls, old(inOrder.current).number, matcher)|, old(inOrder.current)))
    {
      if min <= 0 {
        return Pass;
      }
      var lastCall := inOrder.current;
      var lastCallNumber := lastCall.number;
      var count := 0;
      var calls := data.calls;
      for i := 0 to |calls|
        invariant count == |MatchesAfter(calls[..i], lastCallNumber, matcher)|
        invariant count < min
        invariant inOrder.current == lastCall
      {
        MatchesAfterStep(calls, i, lastCallNumber, matcher);
        var call := calls[i];
        var number := call.number;
        if number <= lastCallNumber {
          continue;
        }
        if matcher.accepts(call) {
          count := count + 1;
          if count >= min {
            ghost var scanned := MatchesAfter(calls[..i + 1], lastCallNumber, matcher);
            ghost var found := MatchesAfter(calls, lastCallNumber, matcher);
            MatchesAfterPrefix(calls, i + 1, lastCallNumber, matcher);
            assert |scanned| == min && scanned[min - 1] == call;
            assert found[min - 1] == call;
            inOrder.current := call;
            return Pass;
          }
        }
      }
      assert calls[..|calls|] == calls;
      assert |MatchesAfter(calls, lastCallNumber, matcher)| == count;
      r := Fail(VerificationError(FailureMessage(min, matcher, count, lastCall)));
    }
  }

  /** Every call found is in the ledger, numbered after the bound, and accepted by the matcher. */
  lemma {:induction false} MatchesAfterSound(calls: seq<MethodCall>, after: int, matcher: MethodMatcher)
    ensures forall c :: c in MatchesAfter(calls, after, matcher) ==> c in calls && c.number > after && matcher.accepts(c)
  {
    if calls != [] {
      MatchesAfterSound(calls[..|calls| - 1], after, matcher);
    }
  }

  /** Every ledger call numbered after the bound that the matcher accepts is found. */
  lemma {:induction false} MatchesAfterComplete(calls: seq<MethodCall>, after: int, matcher: MethodMatcher)
    ensures forall i :: 0 <= i < |calls| && calls[i].number > after && matcher.accepts(calls[i]) ==> calls[i] in MatchesAfter(calls, after, matcher)
  {
    if calls != [] {
      var init := calls[..|calls| - 1];
      MatchesAfterComplete(init, after, matcher);
      forall i | 0 <= i < |init| && init[i].number > after && matcher.accepts(init[i])
        ensures calls[i] in MatchesAfter(calls, after, matcher)
      {
        assert init[i] == calls[i];
      }
    }
  }

  /** Scanning one more call of the ledger adds that call if it is after the bound and matches. */
  lemma MatchesAfterStep(calls: seq<MethodCall>, i: nat, after: int, matcher: MethodMatcher)
    requires i < |calls|
    ensures MatchesAfter(calls[..i + 1], after, matcher)
         == MatchesAfter(calls[..i], after, matcher) + (if calls[i].number > after && matcher.accepts(calls[i]) then [calls[i]] else [])
  {
    assert calls[..i + 1][..i] == calls[..i];
  }

  /** Scanning a prefix of the ledger finds a prefix of the matches. */
  lemma {:induction false} MatchesAfterPrefix(calls: seq<MethodCall>, k: nat, after: int, matcher: MethodMatcher)
    requires k <= |calls|
    ensures MatchesAfter(calls[..k], after, matcher) <= MatchesAfter(calls, after, matcher)
  {
    if k < |calls| {
      var init := calls[..|calls| - 1];
      assert init[..k] == calls[..k];
      MatchesAfterPrefix(init, k, after, matcher);
    } else {
      assert calls[..k] == calls;
    }
  }

  /** Narrowing the window twice is narrowing it once to the later bound. */
  lemma {:induction false} MatchesAfterTwice(calls: seq<MethodCall>, a: int, b: int, matcher: MethodMatcher)
    requires a <= b
    ensures MatchesAfter(MatchesAfter(calls, a, matcher), b, matcher) == MatchesAfter(calls, b, matcher)
  {
    if calls != [] {
      var init := calls[..|calls| - 1];
      var last := calls[|calls| - 1];
      var inner := MatchesAfter(init, a, matcher);
      MatchesAfterTwice(init, a, b, matcher);
      if last.number > a && matcher.accepts(last) {
        assert MatchesAfter(calls, a, matcher) == inner + [last];
        assert (inner + [last])[..|inner|] == inner;
      } else {
        assert MatchesAfter(calls, a, matcher) == inner;
      }
    }
  }

  /** The matches found on an increasing ledger are themselves in increasing call-number order. */
  lemma {:induction false} MatchesAfterIncreasing(calls: seq<MethodCall>, after: int, matcher: MethodMatcher)
    requires CallNumbersIncreasing(calls)
    ensures CallNumbersIncreasing(MatchesAfter(calls, after, matcher))
  {
    if calls != [] {
      var init := calls[..|calls| - 1];
      var last := calls[|calls| - 1];
      MatchesAfterIncreasing(init, after, matcher);
      var inner := MatchesAfter(init, after, matcher);
      MatchesAfterSound(init, after, matcher);
      forall c | c in inner
        ensures c.number < last.number
      {
        var i :| 0 <= i < |init| && init[i] == c;
      }
    }
  }

  /** Nothing is found after a bound that no call's number exceeds. */
  lemma {:induction false} NothingAfterLatest(calls: seq<MethodCall>, after: int, matcher: MethodMatcher)
    requires forall c :: c in calls ==> c.number <= after
    ensures MatchesAfter(calls, after, matcher) == []
  {
    if calls != [] {
      NothingAfterLatest(calls[..|calls| - 1], after, matcher);
    }
  }

  /** On an increasing ledger whose calls all match, the calls after the k-th are exactly those after it. */
  lemma {:induction false} MatchesAfterSuffix(found: seq<MethodCall>, k: nat, matcher: MethodMatcher)
    requires CallNumbersIncreasing(found)
    requires forall c :: c in found ==> matcher.accepts(c)
    requires k < |found|
    ensures MatchesAfter(found, found[k].number, matcher) == found[k + 1..]
  {
    var init := found[..|found| - 1];
    var last := found[|found| - 1];
    if k == |found| - 1 {
      forall c | c in init
        ensures c.number <= last.number
      {
        var i :| 0 <= i < |init| && init[i] == c;
      }
      NothingAfterLatest(init, last.number, matcher);
    } else {
      MatchesAfterSuffix(init, k, matcher);
      assert found[k + 1..] == init[k + 1..] + [last];
    }
  }

  /**
   * Repeating a successful in-order verification with no new calls sees only
   * the matches the first one did not consume: it succeeds again iff at least
   * 2 * min matching calls followed the original cursor.
   */
  lemma RepeatSeesOnlyLaterCalls(calls: seq<MethodCall>, cursor: MethodCall, min: int, matcher: MethodMatcher)
    requires CallNumbersIncreasing(calls)
    requires min > 0
    requires Verify(calls, cursor, min, matcher).0.Pass?
    ensures var found := MatchesAfter(calls, cursor.number, matcher);
      var next := Verify(calls, cursor, min, matcher).1;
      MatchesAfter(calls, next.number, matcher) == found[min..]
      && (Verify(calls, next, min, matcher).0.Pass? <==> |found| >= 2 * min)
  {
    var found := MatchesAfter(calls, cursor.number, matcher);
    var next := found[min - 1];
    assert Verify(calls, cursor, min, matcher).1 == next;
    MatchesAfterSound(calls, cursor.number, matcher);
    assert next in found;
    MatchesAfterTwice(calls, cursor.number, next.number, matcher);
    MatchesAfterIncreasing(calls, cursor.number, matcher);
    MatchesAfterSuffix(found, min - 1, matcher);
    assert MatchesAfter(calls, next.number, matcher) == found[min..];
  }

  /** Two failure messages that differ only in the count found are different texts. */
  lemma FailureMessageReportsCount(min: int, matcher: MethodMatcher, a: int, b: int, lastCall: MethodCall)
    requires FailureMessage(min, matcher, a, lastCall) == FailureMessage(min, matcher, b, lastCall)
    ensures a == b
  {
    var prefix := "Expected " + Formatting.Calls(min) + " to mock." + matcher.text + " but only got ";
    var suffix := if lastCall.number > 0 then " after mock." + lastCall.text + "\n\t\t" + lastCall.stackTrace else "";
    var x, y := Formatting.Calls(a), Formatting.Calls(b);
    assert FailureMessage(min, matcher, a, lastCall) == prefix + x + suffix;
    assert FailureMessage(min, matcher, b, lastCall) == prefix + y + suffix;
    assert |x| == |y|;
    assert x == (prefix + x + suffix)[|prefix|..|prefix| + |x|];
    assert y == (prefix + y + suffix)[|prefix|..|prefix| + |y|];
    Formatting.CallsInjective(a, b);
  }
}
