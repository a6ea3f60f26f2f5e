# mockachino core in Dafny

A model of the rule-bearing core of mockachino, a small Java mocking library, with proofs about it:

- **In-order verification** (`InOrderVerifyHandler.match`). An ordering context keeps a cursor on the last call it matched. A verification for `min` calls scans only the calls numbered after the cursor. On the `min`-th matching call it moves the cursor there. Otherwise it raises a `VerificationError` and leaves the cursor alone. The model has three layers:
  - a filter over the call ledger (`MatchesAfter`);
  - a pure transition (`Verify`);
  - the handler's imperative loop, proved equal to the transition.
- **Stub registration** (`StubReturnHandler.match`). A guard checks the canned return value against the method's return type, which is void, a primitive with its boxed class, or a reference type. Any mismatch is a `UsageError`. On success exactly one `MethodStub` is appended to that method's stub list.
- **Argument matchers**:
  - `ClassMatcher`, with the numeric widening tables of its `any*` factories;
  - `ArgumentCatcher`, which records the last value it was asked about;
  - AND/OR composition, as its unit test fixes it.
- **Message formatting** (`Formatting`):
  - call counts;
  - argument rendering;
  - the iterable and varargs `join`;
  - the stack-trace renderer with its line limit.

Java reflection is replaced by a small type model in `java_types.dfy`:
- a class is a name, a simple name, and the set of its supertypes' names;
- `isInstance` and `isAssignableFrom` are membership in that set;
- a return type is `void`, a primitive with its boxed class, or a reference type.

The files:
- `wrappers.dfy`: Option and Outcome.
- `java_types.dfy`: classes, values and return types.
- `mock_data.dfy`: methods, calls, matchers, stubs, and the mock's `MockData` (the call ledger and the stub map).
- `formatting.dfy`, `in_order.dfy`, `stub_return.dfy`, `matcher.dfy`, `class_matcher.dfy`, `argument_catcher.dfy`, `and_or.dfy`: the operations and their lemmas.

## Model

| member | source | states |
|---|---|---|
| InOrderVerify.Verify | src/se/mockachino/order/InOrderVerifyHandler.java:26-58 | min <= 0 passes and keeps the cursor. Otherwise it passes iff at least min matching calls follow the cursor. On a pass the new cursor is the min-th matching call after the old cursor: a ledger call numbered strictly after it that the matcher accepts. A failure is a VerificationError and leaves the cursor unchanged |
| InOrderVerify.InOrderVerifyHandler.Match | src/se/mockachino/order/InOrderVerifyHandler.java:26-59 | The scanning loop returns exactly Verify's outcome and leaves the cursor exactly where Verify puts it. A failure carries the message built from min, the number of matches actually found, and the old cursor |
| InOrderVerify.InOrder.constructor | src/se/mockachino/order/InOrderVerifyHandler.java:31-32 | A fresh ordering context starts at the sentinel call numbered 0, before every real call |
| InOrderVerify.MatchesAfterSound | src/se/mockachino/order/InOrderVerifyHandler.java:37-51 | Every counted call is in the ledger, has a number strictly above the cursor's, and is accepted by the matcher. Calls at or before the cursor are never counted |
| InOrderVerify.MatchesAfterComplete | src/se/mockachino/order/InOrderVerifyHandler.java:37-51 | Every ledger call after the cursor that the matcher accepts is counted |
| InOrderVerify.MatchesAfterPrefix | src/se/mockachino/order/InOrderVerifyHandler.java:37-51 | Stopping the scan early yields a prefix of the full list of matches, so the min-th match of the scan is the min-th match overall |
| InOrderVerify.MatchesAfterTwice | src/se/mockachino/order/InOrderVerifyHandler.java:40-43 | Filtering after a and then after b >= a is the same as filtering after b |
| InOrderVerify.MatchesAfterIncreasing | src/se/mockachino/order/InOrderVerifyHandler.java:37-46 | The matches keep the ledger's increasing call-number order |
| InOrderVerify.MatchesAfterSuffix | src/se/mockachino/order/InOrderVerifyHandler.java:40-48 | Within the increasing matches, the calls after the k-th match are exactly the matches that follow it |
| InOrderVerify.RepeatSeesOnlyLaterCalls | src/se/mockachino/order/InOrderVerifyHandler.java:40-50 | After a pass, repeating the same verification with no new calls sees only the matches the first one did not use. It passes again iff at least 2*min matches followed the original cursor |
| InOrderVerify.FailureMessage | src/se/mockachino/order/InOrderVerifyHandler.java:53-57 | The message starts with "Expected <calls(min)> to mock.<matcher> but only got <calls(count)>". Exactly when the cursor's call number is > 0, the rest of the message is " after mock." + the last call's text + "\n\t\t" + its stack trace |
| InOrderVerify.FailureMessageReportsCount | src/se/mockachino/order/InOrderVerifyHandler.java:53-54 | Failure messages that differ only in the count found are different texts, so the message reports the actual count |
| StubReturn.CheckReturnValue | src/se/mockachino/stub/StubReturnHandler.java:21-42 | Passes iff the value fits: null for void; a value of exactly the boxed class for a primitive; null or an assignable class for a reference type. A void method with a non-null value gives "Void methods must return null". A primitive with null gives "Expected a return value of type <name> but was null". Any other mismatch gives the error naming both simple names |
| StubReturn.PrimitiveNeedsExactBoxedClass | src/se/mockachino/stub/StubReturnHandler.java:32-39 | The primitive branch tests the exact boxed class and the reference branch tests assignability. In the type model, which does not represent finality, a class that declares Integer as a supertype passes for the reference type Integer and is rejected for int, with the message naming both types |
| StubReturn.FinalBoxedClassBranchesAgree | src/se/mockachino/stub/StubReturnHandler.java:32-39 | When the boxed class is final and class names identify classes, as for Java's boxed classes, a non-null value passes the primitive branch iff it passes the reference branch for the boxed class |
| StubReturn.StubReturnHandler.Match | src/se/mockachino/stub/StubReturnHandler.java:20-45 | The outcome is the guard's. On a pass exactly one MethodStub(returnValue, matcher) is appended to that method's stub list. On a failure the stub map is unchanged. Other methods' lists never change |
| StubReturn.StubReturnHandler.Error | src/se/mockachino/stub/StubReturnHandler.java:47-49 | The usage error "Expected a return value of type <expected> but was <actual>", with both simple names |
| ClassMatchers.Matches | src/se/mockachino/matchers/ClassMatcher.java:45-55 | The search loop returns true iff the value is an instance of the primary class or of some extra class. Null never matches |
| ClassMatchers.GetType | src/se/mockachino/matchers/ClassMatcher.java:57-61 | getType is the primary class given to create, never one of the extra widening classes, and the matcher accepts every instance of it |
| ClassMatchers.AnyInt | src/se/mockachino/matchers/ClassMatcher.java:16-18 | getType is Integer, and it accepts exactly the Integer instances |
| ClassMatchers.AnyLong | src/se/mockachino/matchers/ClassMatcher.java:20-22 | getType is Long, and it accepts exactly the Long or Integer instances |
| ClassMatchers.AnyDouble | src/se/mockachino/matchers/ClassMatcher.java:24-26 | getType is Double, and it accepts exactly the Double instances |
| ClassMatchers.AnyFloat | src/se/mockachino/matchers/ClassMatcher.java:28-30 | getType is Float, and it accepts exactly the Float or Double instances |
| ClassMatchers.AnyShort | src/se/mockachino/matchers/ClassMatcher.java:32-34 | getType is Short, and it accepts exactly the Short or Integer instances |
| ClassMatchers.AnyByte | src/se/mockachino/matchers/ClassMatcher.java:36-38 | getType is Byte, and it accepts exactly the Byte or Integer instances |
| ClassMatchers.AnyBoolean | src/se/mockachino/matchers/ClassMatcher.java:40-42 | getType is Boolean, and it accepts exactly the Boolean instances |
| ClassMatchers.WideningIsOneWay | src/se/mockachino/matchers/ClassMatcher.java:16-42 | Each widening goes one way: anyLong accepts an Integer but anyInt rejects a Long, and so on. anyBoolean rejects an Integer |
| ClassMatchers.List | src/se/mockachino/matchers/ClassMatcher.java:67-75 | The builder loop yields the primary simple name followed by "," and each extra simple name, in order |
| ClassMatchers.ToString | src/se/mockachino/matchers/ClassMatcher.java:63-65 | The description is "<create:" + the simple names separated by "," + ">" |
| ClassMatchers.FactoryDescriptions | src/se/mockachino/matchers/ClassMatcher.java:16-30 | anyInt, anyLong and anyFloat describe themselves as "<create:Integer>", "<create:Long,Integer>" and "<create:Float,Double>" |
| ClassMatchers.DescribeLength | src/se/mockachino/matchers/ClassMatcher.java:63-75 | The description has exactly one "," per extra class: its length is the names' total length + the number of extra classes + 9 |
| ArgumentCatchers.ArgumentCatcher.constructor | src/se/mockachino/matchers/ArgumentCatcher.java:5-9 | A new catcher holds its delegate, and its value is null before any match |
| ArgumentCatchers.ArgumentCatcher.Matches | src/se/mockachino/matchers/ArgumentCatcher.java:15-19 | The value asked about is recorded whatever the verdict, and the verdict is exactly the delegate's |
| ArgumentCatchers.ArgumentCatcher.GetType | src/se/mockachino/matchers/ArgumentCatcher.java:21-24 | The catcher's type is the delegate's type |
| ArgumentCatchers.ArgumentCatcher.GetValue | src/se/mockachino/matchers/ArgumentCatcher.java:26-28 | Returns the recorded value |
| ArgumentCatchers.MatchTwice | src/se/mockachino/matchers/ArgumentCatcher.java:16-28 | Two matches in a row each return the delegate's verdict. Only the second value is retained |
| AndOrMatchers.AndMatchesIffAll | test/se/mockachino/matchers/matcher/AndOrMatcherTest.java:30-33 | An AND matches iff every clause matches |
| AndOrMatchers.OrMatchesIffSome | test/se/mockachino/matchers/matcher/AndOrMatcherTest.java:21-24 | An OR matches iff some clause matches |
| AndOrMatchers.EmptyCombinators | test/se/mockachino/matchers/matcher/AndOrMatcherTest.java:10-16 | The empty AND matches everything and renders "true". The empty OR matches nothing and renders "false" |
| AndOrMatchers.BinaryMatches | test/se/mockachino/matchers/matcher/AndOrMatcherTest.java:21-33 | With two clauses, AND is the conjunction and OR the disjunction of the clauses' verdicts |
| AndOrMatchers.BinaryRendering | test/se/mockachino/matchers/matcher/AndOrMatcherTest.java:25-34 | Two clauses render as "(" + c1 + " & " + c2 + ")" and "(" + c1 + " \| " + c2 + ")" |
| AndOrMatchers.IsSubstringIffOccurs | test/se/mockachino/matchers/matcher/AndOrMatcherTest.java:21-33 | The containsM leaf's test holds iff some position of the text starts a copy of the pattern |
| AndOrMatchers.SimpleScenario | test/se/mockachino/matchers/matcher/AndOrMatcherTest.java:10-16 | testSimple: the empty OR renders "false" and the empty AND renders "true" |
| AndOrMatchers.OrScenario | test/se/mockachino/matchers/matcher/AndOrMatcherTest.java:20-24 | testOr: containsM("Foo") OR eqM("Hello") rejects "X" and accepts "Hello" and "AFooA" |
| AndOrMatchers.OrScenarioText | test/se/mockachino/matchers/matcher/AndOrMatcherTest.java:25 | testOr: the rendering is (regexp(".*Foo.*") \| "Hello") |
| AndOrMatchers.AndScenario | test/se/mockachino/matchers/matcher/AndOrMatcherTest.java:29-33 | testAnd: containsM("lo") AND containsM("Hell") rejects "aloa" and "Hellas" and accepts "Hello" |
| AndOrMatchers.AndScenarioText | test/se/mockachino/matchers/matcher/AndOrMatcherTest.java:34 | testAnd: the rendering is (regexp(".*lo.*") & regexp(".*Hell.*")) |
| Formatting.Calls | src/main/java/se/mockachino/util/Formatting.java:12-20 | "1 call" iff num is 1. "no calls" iff num is 0. Otherwise the decimal number followed by " calls" |
| Formatting.IntToString | src/main/java/se/mockachino/util/Formatting.java:19 | Java's decimal rendering of an int: non-empty, a '-' sign exactly for negative numbers, digits after it |
| Formatting.CallsInjective | src/main/java/se/mockachino/util/Formatting.java:12-20 | Different counts give different texts |
| Formatting.Argument | src/main/java/se/mockachino/util/Formatting.java:30-52 | null renders "null". A string renders quoted, with the string itself between the quotes. A list or array renders in "[" and "]", a set in "{" and "}", a map in "(" and ")". Between the brackets are the elements' renderings separated by ", ", which is what JoinIterable returns for them. An entry renders as its key's rendering, then ":", then its value's rendering. Any other object renders as its own toString() text |
| Formatting.RenderedKindsDiffer | src/main/java/se/mockachino/util/Formatting.java:35-46 | A string, a list, a set and a map never render alike, whatever their contents. A list and an array of the same elements render alike |
| Formatting.MapRendering | src/main/java/se/mockachino/util/Formatting.java:44-49 | A map renders as "(" + its entries rendered as key:value, separated by ", " + ")" |
| Formatting.RenderingsAppend | src/main/java/se/mockachino/util/Formatting.java:38-45 | Rendering a concatenation of elements is the concatenation of their renderings |
| Formatting.JoinIterable | src/main/java/se/mockachino/util/Formatting.java:54-69 | A null iterable joins to "". Otherwise the first-flag loop yields the elements' renderings with sep between neighbours only |
| Formatting.InterleaveLength | src/main/java/se/mockachino/util/Formatting.java:58-68 | A join of n >= 1 pieces places exactly n-1 separators |
| Formatting.JoinArray | src/main/java/se/mockachino/util/Formatting.java:75-93 | A null array joins to "". Otherwise the indexed loop yields the pieces with sep between neighbours only. In varargs mode the last piece is the join of the last array |
| Formatting.PlainJoinAgreesWithIterable | src/main/java/se/mockachino/util/Formatting.java:71-73 | Without varargs, the array join renders every element as the iterable join does |
| Formatting.VarargsFlatten | src/main/java/se/mockachino/util/Formatting.java:86-87 | In varargs mode a non-empty last array is flattened into the same separated sequence as its elements |
| Formatting.VarargsEmptyTail | src/main/java/se/mockachino/util/Formatting.java:82-87 | In varargs mode an empty or null last array that is not the only element still gets its separator, so the text ends in sep |
| Formatting.TraceTextPrefix | src/main/java/se/mockachino/util/Formatting.java:104-111 | The rendering of the first k frames is a prefix of the rendering of all of them: truncation keeps the first lines in trace order |
| Formatting.StackTraceToString | src/main/java/se/mockachino/util/Formatting.java:99-113 | A null or empty trace gives null. Otherwise the rendering of the first min(max(maxLines, 0), length) frames, one "\tat C.m(F:L)\n" line each |
| Formatting.StackTraceToStringAsWritten | src/main/java/se/mockachino/util/Formatting.java:99-113 | The same with Java's 32-bit --maxLines. Integer.MIN_VALUE wraps and emits every frame |
| Formatting.MinValueLimitEmitsEverything | src/main/java/se/mockachino/util/Formatting.java:105 | With a limit of Integer.MIN_VALUE the code as written emits all n frames. The intended limit emits none, as every other negative limit does |
| Formatting.StackTraceToStringAll | src/main/java/se/mockachino/util/Formatting.java:95-97 | With no limit given, every frame is rendered |

## Left out

- `Mockachino.java` is a static facade that forwards to a context not part of this model. `ProxyUtil.java` is proxy synthesis and class loading. Neither has logic of its own to model.
- Java reflection is replaced by the type model described above:
  - a class's supertypes are given as a set of names;
  - the boxed classes list Number and Object only, leaving out Comparable and Serializable;
  - class finality is not represented, so the model admits classes that extend a boxed class (see StubReturn.FinalBoxedClassBranchesAgree).
- `Formatting.quote` delegates to regex quoting and is not modelled.
- `PrimitiveList.toList` is not part of this model. Arguments reach `Argument` already normalised, and an array renders like a list.
- The forwarders have no members of their own:
  - `list(Iterable)` at Formatting.java:22-24 is JoinIterable with sep ", ";
  - `list(Object[], varArgs)` at :26-28 is JoinArray with sep ", " and the caller's varArgs;
  - `join(sep, objects...)` at :71-73 is JoinArray with the caller's sep and varArg false.
- Formatting.JoinArray: requires the varargs last element to be an array or null. The source throws ClassCastException for anything else, and the model does not represent that exception.
- Formatting.JoinArray: `ArrayOf` as a varargs tail stands for an `Object[]` only. The cast at Formatting.java:87 also throws ClassCastException for a primitive array such as `int[]`, and the model has no separate primitive-array value, so it does not capture that exception.
- Formatting.Argument: any other object renders through its own `toString()`, which is given as text (`Plain`). Sets and maps render in the iteration order they are given in.
- `MethodMatcher.matches`, `MethodCall.toString` and `getStackTrace` are opaque: a predicate and two strings carried by the call and matcher values.
- `InOrder`, `MockData`, `AndMatcher` and `OrMatcher` are not part of this model. They are modelled from how the handlers and the test use them:
  - the cursor starts at a sentinel call numbered 0;
  - the stub list of a method with no stubs is empty;
  - the combinators take a sequence of clauses;
  - a combinator of one clause renders as "(c)".
- AndOrMatchers.ContainsM: the regular expression ".*s.*" is modelled as a substring test. This agrees with the regex only for patterns without metacharacters and texts without line terminators, since `.` does not match them by default. The test's patterns and texts are all of that kind. The matcher's own source is not part of this model, so its regex flags are assumed.
- Thread safety and the process-wide call counter are not modelled. The code is single-threaded, and the counter's allocation is not part of this model. Call numbers are plain fields.
- InOrderVerify.RepeatSeesOnlyLaterCalls: requires the ledger's call numbers to be increasing, which the global counter gives the real ledger.
- Formatting.StackTraceToStringAsWritten: requires maxLines to be a 32-bit int and the trace to have at most Integer.MAX_VALUE frames, as every Java int and array does.

## Findings

| source | as written | input that shows it | evidently intended | confidence | as-written member | corrected member |
|---|---|---|---|---|---|---|
| src/main/java/se/mockachino/util/Formatting.java:105 | `--maxLines < 0` on an int: Integer.MIN_VALUE wraps to Integer.MAX_VALUE, the test never fires, and every frame is emitted | a one-frame trace with maxLines = Integer.MIN_VALUE gives that frame's line instead of "" | a negative limit emits no lines | low (an extreme input); not executed | Formatting.StackTraceToStringAsWritten, Formatting.MinValueLimitEmitsEverything | Formatting.StackTraceToString |
