/**
 * The string building behind every error message: pluralised call counts,
 * the rendering of argument values, separator joining (also in varargs form)
 * and the rendering of a captured stack trace cut to a line limit.
 */
module Formatting {
  import opened Wrappers

  // ---------------------------------------------------------------------------
  // Decimal rendering of Java ints (what `"" + n` produces)
  // ---------------------------------------------------------------------------

  predicate IsDigit(c: char) {
    '0' <= c <= '9'
  }

  function DigitChar(d: nat): (c: char)
    requires d < 10
    ensures IsDigit(c) && c as int - '0' as int == d
  {
    ('0' as int + d) as char
  }

  function NatToString(n: nat): (s: string)
    ensures |s| > 0
    ensures forall i :: 0 <= i < |s| ==> IsDigit(s[i])
  {
    if n < 10 then [DigitChar(n)] else NatToString(n / 10) + [DigitChar(n % 10)]
  }

  /** The value of a string of decimal digits; the inverse of NatToString. */
  function ParseDigits(s: string): nat
    requires forall i :: 0 <= i < |s| ==> IsDigit(s[i])
  {
    if s == [] then 0 else ParseDigits(s[..|s| - 1]) * 10 + DigitValue(s[|s| - 1])
  }

  function DigitValue(c: char): (d: nat)
    requires IsDigit(c)
    ensures d < 10
  {
    c as int - '0' as int
  }

  lemma {:induction false} ParseNatToString(n: nat)
    ensures ParseDigits(NatToString(n)) == n
  {
    if n >= 10 {
      var s := NatToString(n);
      assert s[..|s| - 1] == NatToString(n / 10);
      ParseNatToString(n / 10);
    }
  }

  /** Java's decimal rendering of an int: a minus sign for negatives, then the digits. */
  function IntToString(n: int): (s: string)
    ensures |s| > 0
    ensures forall i :: 0 < i < |s| ==> IsDigit(s[i])
    ensures n >= 0 ==> IsDigit(s[0])
    ensures n < 0 ==> s[0] == '-'
  {
    if n < 0 then "-" + NatToString(-n) else NatToString(n)
  }

  /** Distinct ints render as distinct strings. */
  lemma IntToStringInjective(a: int, b: int)
    requires IntToString(a) == IntToString(b)
    ensures a == b
  {
    if a >= 0 && b >= 0 {
      ParseNatToString(a);
      ParseNatToString(b);
    } else if a < 0 && b < 0 {
      assert NatToString(-a) == IntToString(a)[1..];
      assert NatToString(-b) == IntToString(b)[1..];
      ParseNatToString(-a);
      ParseNatToString(-b);
    }
  }

  // ---------------------------------------------------------------------------
  // calls(num)
  // ---------------------------------------------------------------------------

  /** `Formatting.calls`: "1 call", "no calls", otherwise the number and " calls". */
  function Calls(num: int): (r: string)
    ensures num == 1 <==> r == "1 call"
    ensures num == 0 <==> r == "no calls"
    ensures num != 0 && num != 1 ==> r == IntToString(num) + " calls"
  {
    if num == 1 then "1 call"
    else if num == 0 then "no calls"
    else CountedCallsText(num); IntToString(num) + " calls"
  }

  /** A rendered number followed by " calls" can be neither of the two special texts. */
  lemma CountedCallsText(num: int)
    ensures IntToString(num) + " calls" != "1 call"
    ensures IntToString(num) + " calls" != "no calls"
  {
    var s := IntToString(num);
    assert (s + " calls")[0] == s[0];
  }

  /** A message built with Calls reports the count unambiguously: different counts give different texts. */
  lemma CallsInjective(a: int, b: int)
    requires Calls(a) == Calls(b)
    ensures a == b
  {
    if a != 0 && a != 1 && b != 0 && b != 1 {
      var x, y := IntToString(a), IntToString(b);
      assert |x| == |y|;
      assert x == (x + " calls")[..|x|];
      assert y == (y + " calls")[..|y|];
      IntToStringInjective(a, b);
    }
  }

  // ---------------------------------------------------------------------------
  // argument(arg)
  // ---------------------------------------------------------------------------

  /**
   * An argument value as `argument` sees it after normalisation: null, a
   * String, a List, a Set (in its iteration order), a Map (its entry set, in
   * iteration order), one Map.Entry, an array, or any other object, which
   * renders as its own toString().
   */
  datatype Arg =
    | NullRef
    | Text(s: string)
    | ListOf(elems: seq<Arg>)
    | SetOf(elems: seq<Arg>)
    | MapOf(entries: seq<Arg>)
    | Entry(key: Arg, value: Arg)
    | ArrayOf(elems: seq<Arg>)
    | Plain(text: string)

  /** A string as `argument` renders it: between double quotes, unescaped. */
  function Quoted(s: string): (r: string)
    ensures |r| == |s| + 2 && r[0] == '"' && r[|r| - 1] == '"' && r[1..|r| - 1] == s
  {
    "\"" + s + "\""
  }

  /** `Formatting.argument`. */
  function Argument(arg: Arg): (r: string)
    ensures arg.NullRef? ==> r == "null"
    ensures arg.Text? ==> |r| >= 2 && r[0] == '"' && r[|r| - 1] == '"' && r[1..|r| - 1] == arg.s
    ensures arg.ListOf? || arg.ArrayOf? ==>
      |r| >= 2 && r[0] == '[' && r[|r| - 1] == ']' && r[1..|r| - 1] == Interleave(", ", Renderings(arg.elems))
    ensures arg.SetOf? ==>
      |r| >= 2 && r[0] == '{' && r[|r| - 1] == '}' && r[1..|r| - 1] == Interleave(", ", Renderings(arg.elems))
    ensures arg.MapOf? ==>
      |r| >= 2 && r[0] == '(' && r[|r| - 1] == ')' && r[1..|r| - 1] == Interleave(", ", Renderings(arg.entries))
    ensures arg.Entry? ==>
      |r| > |Argument(arg.key)| && r[..|Argument(arg.key)|] == Argument(arg.key) && r[|Argument(arg.key)|] == ':'
      && r[|Argument(arg.key)| + 1..] == Argument(arg.value)
    ensures arg.Plain? ==> r == arg.text
  {
    match arg
    case NullRef => "null"
    case Text(s) => Quoted(s)
    case ListOf(es) => "[" + Interleave(", ", Renderings(es)) + "]"
    case ArrayOf(es) => "[" + Interleave(", ", Renderings(es)) + "]"
    case SetOf(es) => "{" + Interleave(", ", Renderings(es)) + "}"
    case MapOf(es) => "(" + Interleave(", ", Renderings(es)) + ")"
    case Entry(k, v) => Argument(k) + ":" + Argument(v)
    case Plain(t) => t
  }

  /** Every element rendered by Argument, in order. */
  function Renderings(es: seq<Arg>): (r: seq<string>)
    ensures |r| == |es|
  {
    seq(|es|, i requires 0 <= i < |es| => Argument(es[i]))
  }

  /** The bracket a delimited rendering opens with: a quote, a list (or array), a set, a map. */
  function Opener(a: Arg): char
    requires a.Text? || a.ListOf? || a.ArrayOf? || a.SetOf? || a.MapOf?
  {
    match a
    case Text(_) => '"'
    case SetOf(_) => '{'
    case MapOf(_) => '('
    case _ => '['
  }

  /**
   * The rendering tells the kinds apart: a string, a list, a set and a map
   * never render alike, whatever their contents; a list and an array of the
   * same elements render alike.
   */
  lemma RenderedKindsDiffer(a: Arg, b: Arg)
    requires a.Text? || a.ListOf? || a.ArrayOf? || a.SetOf? || a.MapOf?
    requires b.Text? || b.ListOf? || b.ArrayOf? || b.SetOf? || b.MapOf?
    ensures Opener(a) != Opener(b) ==> Argument(a) != Argument(b)
    ensures a.ListOf? ==> Argument(a) == Argument(ArrayOf(a.elems))
  {
    if Opener(a) != Opener(b) {
      assert Argument(a)[0] == Opener(a);
      assert Argument(b)[0] == Opener(b);
    }
  }

  /** Rendering distributes over concatenation of the elements. */
  lemma RenderingsAppend(xs: seq<Arg>, ys: seq<Arg>)
    ensures Renderings(xs + ys) == Renderings(xs) + Renderings(ys)
  {
  }

  /** A map renders as its entries `k:v`, separated by ", ", inside parentheses. */
  lemma MapRendering(keys: seq<Arg>, values: seq<Arg>)
    requires |keys| == |values|
    ensures Argument(MapOf(seq(|keys|, i requires 0 <= i < |keys| => Entry(keys[i], values[i]))))
         == "(" + Interleave(", ", seq(|keys|, i requires 0 <= i < |keys| => Argument(keys[i]) + ":" + Argument(values[i]))) + ")"
  {
    var entries := seq(|keys|, i requires 0 <= i < |keys| => Entry(keys[i], values[i]));
    assert Renderings(entries) == seq(|keys|, i requires 0 <= i < |keys| => Argument(keys[i]) + ":" + Argument(values[i]));
  }

  // ---------------------------------------------------------------------------
  // Joining with a separator
  // ---------------------------------------------------------------------------

  /** The pieces with `sep` between each two neighbours, and nowhere else. */
  function Interleave(sep: string, xs: seq<string>): string {
    if xs == [] then ""
    else if |xs| == 1 then xs[0]
    else xs[0] + sep + Interleave(sep, xs[1..])
  }

  function TotalLength(xs: seq<string>): nat {
    if xs == [] then 0 else |xs[0]| + TotalLength(xs[1..])
  }

  /** Adding one more piece at the end adds exactly one separator, before it. */
  lemma {:induction false} InterleaveSnoc(sep: string, xs: seq<string>, y: string)
    requires xs != []
    ensures Interleave(sep, xs + [y]) == Interleave(sep, xs) + sep + y
  {
    if |xs| > 1 {
      assert (xs + [y])[1..] == xs[1..] + [y];
      InterleaveSnoc(sep, xs[1..], y);
    } else {
      assert xs + [y] == [xs[0], y];
    }
  }

  /** Joining two non-empty runs is joining each and putting one separator between them. */
  lemma {:induction false} InterleaveAppend(sep: string, xs: seq<string>, ys: seq<string>)
    requires xs != [] && ys != []
    ensures Interleave(sep, xs + ys) == Interleave(sep, xs) + sep + Interleave(sep, ys)
  {
    var init, y := ys[..|ys| - 1], ys[|ys| - 1];
    assert ys == init + [y];
    if init == [] {
      InterleaveSnoc(sep, xs, y);
    } else {
      assert xs + ys == (xs + init) + [y];
      InterleaveSnoc(sep, xs + init, y);
      InterleaveAppend(sep, xs, init);
      InterleaveSnoc(sep, init, y);
    }
  }

  /** n pieces carry exactly n - 1 separators: the length is the pieces' plus (n - 1) separators. */
  lemma {:induction false} InterleaveLength(sep: string, xs: seq<string>)
    requires xs != []
    ensures |Interleave(sep, xs)| == TotalLength(xs) + (|xs| - 1) * |sep|
  {
    if |xs| > 1 {
      InterleaveLength(sep, xs[1..]);
      assert (|xs| - 1) * |sep| == (|xs| - 2) * |sep| + |sep|;
    }
  }

  /** One more element joined: a separator unless it is the first, then its rendering. */
  lemma JoinStep(sep: string, items: seq<Arg>, i: nat)
    requires i < |items|
    ensures Interleave(sep, Renderings(items[..i + 1]))
         == (if i == 0 then "" else Interleave(sep, Renderings(items[..i])) + sep) + Argument(items[i])
  {
    assert Renderings(items[..i + 1]) == Renderings(items[..i]) + [Argument(items[i])];
    if i > 0 {
      InterleaveSnoc(sep, Renderings(items[..i]), Argument(items[i]));
    }
  }

  /** `join(sep, iterable)`: null joins to "", otherwise the renderings separated by `sep`. */
  method JoinIterable(sep: string, iterable: Option<seq<Arg>>) returns (r: string)
    ensures iterable.None? ==> r == ""
    ensures iterable.Some? ==> r == Interleave(sep, Renderings(iterable.value))
  {
    if iterable.None? {
      return "";
    }
    var items := iterable.value;
    var builder := "";
    var first := true;
    for i := 0 to |items|
      invariant first <==> i == 0
      invariant builder == Interleave(sep, Renderings(items[..i]))
    {
      if first {
        first := false;
      } else {
        builder := builder + sep;
      }
      builder := builder + Argument(items[i]);
      JoinStep(sep, items, i);
    }
    r := builder;
    assert items[..|items|] == items;
  }

  /** In varargs mode the last element is cast to an array: it must be one, or null. */
  predicate VarargShape(varArg: bool, objects: seq<Arg>) {
    varArg && |objects| > 0 ==> objects[|objects| - 1].ArrayOf? || objects[|objects| - 1].NullRef?
  }

  /** The varargs array joined in place: null joins to "". */
  function Spread(sep: string, a: Arg): string
    requires a.ArrayOf? || a.NullRef?
  {
    if a.NullRef? then "" else Interleave(sep, Renderings(a.elems))
  }

  /** The text `join(varArg, sep, objects)` puts between separators, element by element. */
  function Pieces(varArg: bool, sep: string, objects: seq<Arg>): (r: seq<string>)
    requires VarargShape(varArg, objects)
    ensures |r| == |objects|
  {
    seq(|objects|, i requires 0 <= i < |objects| =>
      if varArg && i == |objects| - 1 then Spread(sep, objects[i]) else Argument(objects[i]))
  }

  /** `join(varArg, sep, objects...)`; `join(sep, objects...)` is the case varArg == false. */
  method JoinArray(varArg: bool, sep: string, objects: Option<seq<Arg>>) returns (r: string)
    requires objects.Some? ==> VarargShape(varArg, objects.value)
    ensures objects.None? ==> r == ""
    ensures objects.Some? ==> r == Interleave(sep, Pieces(varArg, sep, objects.value))
    decreases varArg
  {
    if objects.None? {
      return "";
    }
    var objs := objects.value;
    ghost var pieces := Pieces(varArg, sep, objs);
    var builder := "";
    var n := |objs|;
    for i := 0 to n
      invariant builder == Interleave(sep, pieces[..i])
    {
      if i > 0 {
        builder := builder + sep;
      }
      var obj := objs[i];
      var piece;
      if varArg && i == n - 1 {
        piece := JoinArray(false, sep, if obj.NullRef? then None else Some(obj.elems));
        if obj.ArrayOf? {
          PlainJoinAgreesWithIterable(sep, obj.elems);
        }
      } else {
        piece := Argument(obj);
      }
      builder := builder + piece;
      assert pieces[..i + 1] == pieces[..i] + [piece];
      if i > 0 {
        InterleaveSnoc(sep, pieces[..i], piece);
      }
    }
    r := builder;
    assert pieces[..n] == pieces;
  }

  /** Without varargs every element is rendered by Argument, as in the iterable form. */
  lemma PlainJoinAgreesWithIterable(sep: string, objects: seq<Arg>)
    ensures Pieces(false, sep, objects) == Renderings(objects)
  {
  }

  /** In varargs mode a non-empty last array is flattened into the same separated sequence. */
  lemma VarargsFlatten(sep: string, front: seq<Arg>, rest: seq<Arg>)
    requires rest != []
    ensures Interleave(sep, Pieces(true, sep, front + [ArrayOf(rest)])) == Interleave(sep, Renderings(front + rest))
  {
    var objects := front + [ArrayOf(rest)];
    var tail := Interleave(sep, Renderings(rest));
    assert Pieces(true, sep, objects) == Renderings(front) + [tail];
    RenderingsAppend(front, rest);
    if front == [] {
      assert Renderings(front) + [tail] == [tail];
      assert front + rest == rest;
    } else {
      InterleaveSnoc(sep, Renderings(front), tail);
      InterleaveAppend(sep, Renderings(front), Renderings(rest));
    }
  }

  /** In varargs mode an empty (or null) last array still receives its separator: the text ends in `sep`. */
  lemma VarargsEmptyTail(sep: string, front: seq<Arg>, last: Arg)
    requires front != []
    requires last == ArrayOf([]) || last == NullRef
    ensures Interleave(sep, Pieces(true, sep, front + [last])) == Interleave(sep, Renderings(front)) + sep
  {
    assert Pieces(true, sep, front + [last]) == Renderings(front) + [""];
    InterleaveSnoc(sep, Renderings(front), "");
  }

  // ---------------------------------------------------------------------------
  // toString(stacktrace, maxLines)
  // ---------------------------------------------------------------------------

  /** A StackTraceElement; the file name may be null. */
  datatype Frame = Frame(className: string, methodName: string, fileName: Option<string>, lineNumber: int)

  /** One rendered frame; StringBuilder renders a null file name as "null". */
  function FrameLine(f: Frame): string {
    "\tat " + f.className + "." + f.methodName
      + "(" + (if f.fileName.Some? then f.fileName.value else "null") + ":" + IntToString(f.lineNumber) + ")"
      + "\n"
  }

  /** All frames rendered, one line each, in trace order. */
  function TraceText(frames: seq<Frame>): string {
    if frames == [] then "" else TraceText(frames[..|frames| - 1]) + FrameLine(frames[|frames| - 1])
  }

  /** Rendering one more frame appends its line. */
  lemma TraceTextStep(frames: seq<Frame>, i: nat)
    requires i < |frames|
    ensures TraceText(frames[..i + 1]) == TraceText(frames[..i]) + FrameLine(frames[i])
  {
    assert frames[..i + 1][..i] == frames[..i];
  }

  /** Cutting a trace keeps the first lines in order: the rendering of a prefix is a prefix of the rendering. */
  lemma {:induction false} TraceTextPrefix(frames: seq<Frame>, k: nat)
    requires k <= |frames|
    ensures TraceText(frames[..k]) <= TraceText(frames)
  {
    if k < |frames| {
      var init := frames[..|frames| - 1];
      assert init[..k] == frames[..k];
      TraceTextPrefix(init, k);
    } else {
      assert frames[..k] == frames;
    }
  }

  const IntMin: int := -0x8000_0000
  const IntMax: int := 0x7fff_ffff

  predicate IsInt32(x: int) {
    IntMin <= x <= IntMax
  }

  /** Java's `--x` on an int: Integer.MIN_VALUE wraps around to Integer.MAX_VALUE. */
  function Decrement32(x: int): (r: int)
    requires IsInt32(x)
    ensures IsInt32(r)
    ensures x != IntMin ==> r == x - 1
  {
    if x == IntMin then IntMax else x - 1
  }

  /** The intended number of lines: at most maxLines (none for maxLines <= 0), at most the trace length. */
  function LineLimit(n: nat, maxLines: int): (k: nat)
    ensures k <= n
    ensures maxLines <= 0 ==> k == 0
    ensures maxLines > 0 ==> k <= maxLines && (k == maxLines || k == n)
  {
    if maxLines <= 0 then 0 else if maxLines < n then maxLines else n
  }

  /** The number of lines the source emits with 32-bit ints: MIN_VALUE wraps and lets every line through. */
  function LinesAsWritten(n: nat, maxLines: int): nat {
    if maxLines == IntMin then n else LineLimit(n, maxLines)
  }

  /** How many decrements of a 32-bit limit stay non-negative: MIN_VALUE first wraps to MAX_VALUE. */
  function Budget(maxLines: int): int {
    if maxLines == IntMin then IntMax + 1 else maxLines
  }

  /** One turn of the as-written loop: the decremented limit is negative exactly when the emitted lines are all there are. */
  lemma AsWrittenStep(n: nat, maxLines: int, i: nat, lines: int)
    requires IsInt32(maxLines) && IsInt32(lines) && i < n <= IntMax
    requires i == 0 ==> lines == maxLines
    requires i > 0 ==> lines == Budget(maxLines) - i && lines >= 0
    ensures Decrement32(lines) < 0 ==> i == LinesAsWritten(n, maxLines)
    ensures Decrement32(lines) >= 0 ==> Decrement32(lines) == Budget(maxLines) - (i + 1)
  {
  }

  /** `toString(stacktrace, maxLines)` as written, with Java's 32-bit `--maxLines`. */
  method StackTraceToStringAsWritten(stacktrace: Option<seq<Frame>>, maxLines: int) returns (r: Option<string>)
    requires IsInt32(maxLines)
    requires stacktrace.Some? ==> |stacktrace.value| <= IntMax
    ensures stacktrace.None? || stacktrace.value == [] ==> r.None?
    ensures stacktrace.Some? && stacktrace.value != [] ==>
      r == Some(TraceText(stacktrace.value[..LinesAsWritten(|stacktrace.value|, maxLines)]))
  {
    if stacktrace.None? || |stacktrace.value| == 0 {
      return None;
    }
    var frames := stacktrace.value;
    var builder := "";
    var lines := maxLines;
    var i := 0;
    while i < |frames|
      invariant 0 <= i <= |frames|
      invariant IsInt32(lines)
      invariant i == 0 ==> lines == maxLines
      invariant i > 0 ==> lines == Budget(maxLines) - i && lines >= 0
      invariant builder == TraceText(frames[..i])
    {
      AsWrittenStep(|frames|, maxLines, i, lines);
      lines := Decrement32(lines);
      if lines < 0 {
        break;
      }
      TraceTextStep(frames, i);
      builder := builder + FrameLine(frames[i]);
      i := i + 1;
    }
    assert i == LinesAsWritten(|frames|, maxLines);
    r := Some(builder);
  }

  /** `toString(stacktrace, maxLines)` with the limit decremented without wrap-around: at most maxLines lines. */
  method StackTraceToString(stacktrace: Option<seq<Frame>>, maxLines: int) returns (r: Option<string>)
    ensures stacktrace.None? || stacktrace.value == [] ==> r.None?
    ensures stacktrace.Some? && stacktrace.value != [] ==>
      r == Some(TraceText(stacktrace.value[..LineLimit(|stacktrace.value|, maxLines)]))
  {
    if stacktrace.None? || |stacktrace.value| == 0 {
      return None;
    }
    var frames := stacktrace.value;
    var builder := "";
    var lines := maxLines;
    var i := 0;
    while i < |frames|
      invariant 0 <= i <= |frames|
      invariant lines == maxLines - i
      invariant i > 0 ==> lines >= 0
      invariant builder == TraceText(frames[..i])
    {
      lines := lines - 1;
      if lines < 0 {
        break;
      }
      TraceTextStep(frames, i);
      builder := builder + FrameLine(frames[i]);
      i := i + 1;
    }
    assert i == LineLimit(|frames|, maxLines);
    r := Some(builder);
  }

  /** `toString(stacktrace)`: the limit Integer.MAX_VALUE, which no Java array exceeds, so every frame. */
  method StackTraceToStringAll(stacktrace: Option<seq<Frame>>) returns (r: Option<string>)
    requires stacktrace.Some? ==> |stacktrace.value| <= IntMax
    ensures stacktrace.None? || stacktrace.value == [] ==> r.None?
    ensures stacktrace.Some? && stacktrace.value != [] ==> r == Some(TraceText(stacktrace.value))
  {
    r := StackTraceToString(stacktrace, IntMax);
    if stacktrace.Some? {
      assert stacktrace.value[..|stacktrace.value|] == stacktrace.value;
    }
  }

  /** The discrepancy: a limit of Integer.MIN_VALUE emits every line, where every other negative limit emits none. */
  lemma MinValueLimitEmitsEverything(n: nat, maxLines: int)
    requires n > 0 && maxLines < 0
    ensures LinesAsWritten(n, IntMin) == n
    ensures LineLimit(n, IntMin) == 0
    ensures maxLines != IntMin ==> LinesAsWritten(n, maxLines) == 0
  {
  }
}
