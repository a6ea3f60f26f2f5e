/**
 * AND/OR matcher composition as pure combinators over a sequence of clauses:
 * AND accepts iff every clause does, OR iff some clause does, each evaluated
 * left to right with short-circuit; the empty AND is "true", the empty OR
 * "false"; both render as a parenthesised infix list. The scenarios of the
 * unit test are stated at the end with its two leaf matchers.
 */
module AndOrMatchers {
  import opened JavaTypes
  import opened Matchers
  import Formatting

  datatype Combinator<!T> =
    | Leaf(matcher: Matcher<T>)
    | AndOf(clauses: seq<Combinator<T>>)
    | OrOf(clauses: seq<Combinator<T>>)

  function Matches<T>(c: Combinator<T>, v: T): bool {
    match c
    case Leaf(m) => m.test(v)
    case AndOf(cs) => AllMatch(cs, v)
    case OrOf(cs) => AnyMatch(cs, v)
  }

  /** Clause by clause, stopping at the first that fails. */
  function AllMatch<T>(cs: seq<Combinator<T>>, v: T): bool {
    cs == [] || (Matches(cs[0], v) && AllMatch(cs[1..], v))
  }

  /** Clause by clause, stopping at the first that matches. */
  function AnyMatch<T>(cs: seq<Combinator<T>>, v: T): bool {
    cs != [] && (Matches(cs[0], v) || AnyMatch(cs[1..], v))
  }

  /** `asString`. */
  function AsString<T>(c: Combinator<T>): string {
    match c
    case Leaf(m) => m.text
    case AndOf(cs) => if cs == [] then "true" else "(" + Formatting.Interleave(" & ", Texts(cs)) + ")"
    case OrOf(cs) => if cs == [] then "false" else "(" + Formatting.Interleave(" | ", Texts(cs)) + ")"
  }

  function Texts<T>(cs: seq<Combinator<T>>): (r: seq<string>)
    ensures |r| == |cs|
  {
    seq(|cs|, i requires 0 <= i < |cs| => AsString(cs[i]))
  }

  /** AND matches iff every clause matches. */
  lemma {:induction false} AndMatchesIffAll<T>(cs: seq<Combinator<T>>, v: T)
    ensures Matches(AndOf(cs), v) <==> forall i :: 0 <= i < |cs| ==> Matches(cs[i], v)
  {
    if cs != [] {
      AndMatchesIffAll(cs[1..], v);
      assert forall i :: 1 <= i < |cs| ==> cs[i] == cs[1..][i - 1];
    }
  }

  /** OR matches iff some clause matches. */
  lemma {:induction false} OrMatchesIffSome<T>(cs: seq<Combinator<T>>, v: T)
    ensures Matches(OrOf(cs), v) <==> exists i :: 0 <= i < |cs| && Matches(cs[i], v)
  {
    if cs != [] {
      OrMatchesIffSome(cs[1..], v);
      assert forall i :: 1 <= i < |cs| ==> cs[i] == cs[1..][i - 1];
    }
  }

  /** The empty combinators are the identities: AND of nothing is true, OR of nothing is false, in value and in text. */
  lemma EmptyCombinators<T>(v: T)
    ensures Matches(AndOf([]), v) && AsString<T>(AndOf([])) == "true"
    ensures !Matches(OrOf([]), v) && AsString<T>(OrOf([])) == "false"
  {
  }

  /** Two clauses render as "(a & b)" and "(a | b)". */
  lemma BinaryRendering<T>(a: Combinator<T>, b: Combinator<T>)
    ensures AsString(AndOf([a, b])) == "(" + AsString(a) + " & " + AsString(b) + ")"
    ensures AsString(OrOf([a, b])) == "(" + AsString(a) + " | " + AsString(b) + ")"
  {
    var texts := Texts([a, b]);
    assert texts == [AsString(a), AsString(b)];
    assert texts[1..] == [AsString(b)];
    assert Formatting.Interleave(" & ", texts) == AsString(a) + " & " + AsString(b);
    assert Formatting.Interleave(" | ", texts) == AsString(a) + " | " + AsString(b);
  }

  /** Two clauses: AND is the conjunction, OR the disjunction of the clauses' verdicts. */
  lemma BinaryMatches<T>(a: Combinator<T>, b: Combinator<T>, v: T)
    ensures Matches(AndOf([a, b]), v) <==> Matches(a, v) && Matches(b, v)
    ensures Matches(OrOf([a, b]), v) <==> Matches(a, v) || Matches(b, v)
  {
    AndMatchesIffAll([a, b], v);
    OrMatchesIffSome([a, b], v);
    assert [a, b][0] == a && [a, b][1] == b;
  }

  // ---------------------------------------------------------------------------
  // The unit test's leaves and scenarios
  // ---------------------------------------------------------------------------

  /** `sub` occurs in `s` at some position. */
  function IsSubstring(sub: string, s: string): bool {
    |sub| <= |s| && (s[..|sub|] == sub || IsSubstring(sub, s[1..]))
  }

  /** A copy of `sub` starts at position `i` of `s`. */
  predicate OccursAt(sub: string, s: string, i: int) {
    0 <= i <= |s| - |sub| && s[i..i + |sub|] == sub
  }

  /** IsSubstring is the search it stands for: some position of `s` starts a copy of `sub`. */
  lemma {:induction false} IsSubstringIffOccurs(sub: string, s: string)
    ensures IsSubstring(sub, s) <==> exists i :: OccursAt(sub, s, i)
  {
    if |sub| <= |s| {
      if s[..|sub|] == sub {
        assert OccursAt(sub, s, 0);
      } else {
        IsSubstringIffOccurs(sub, s[1..]);
        forall i | OccursAt(sub, s[1..], i)
          ensures OccursAt(sub, s, i + 1)
        {
          assert s[i + 1..i + 1 + |sub|] == s[1..][i..i + |sub|];
        }
        forall i | OccursAt(sub, s, i)
          ensures OccursAt(sub, s[1..], i - 1)
        {
          assert s[i..i + |sub|] == s[1..][i - 1..i - 1 + |sub|];
        }
      }
    }
  }

  /** Every character of a substring occurs in the text. */
  lemma SubstringCharsOccur(sub: string, s: string, k: nat)
    requires k < |sub|
    ensures IsSubstring(sub, s) ==> sub[k] in s
  {
    IsSubstringIffOccurs(sub, s);
    if IsSubstring(sub, s) {
      var i :| OccursAt(sub, s, i);
      assert s[i..i + |sub|][k] == s[i + k];
    }
  }

  /** `containsM(s)`: the regular expression ".*s.*", here for texts without regex metacharacters. */
  function ContainsM(s: string): Matcher<string> {
    Matcher(v => IsSubstring(s, v), StringClass, "regexp(" + Formatting.Quoted(".*" + s + ".*") + ")")
  }

  /** `eqM(s)`: equality with `s`, described by its quoted rendering. */
  function EqM(s: string): Matcher<string> {
    Matcher(v => v == s, StringClass, Formatting.Quoted(s))
  }

  /** The containsM leaf accepts exactly the texts containing its pattern. */
  lemma ContainsMMatches(s: string, v: string)
    ensures Matches(Leaf(ContainsM(s)), v) <==> IsSubstring(s, v)
  {
  }

  /** The eqM leaf accepts exactly its own text. */
  lemma EqMMatches(s: string, v: string)
    ensures Matches(Leaf(EqM(s)), v) <==> v == s
  {
  }

  /** testSimple: the empty OR renders "false", the empty AND "true". */
  lemma SimpleScenario()
    ensures AsString<string>(OrOf([])) == "false"
    ensures AsString<string>(AndOf([])) == "true"
  {
  }

  /** The text of containsM(s) is the quoted pattern ".*s.*" inside "regexp(...)". */
  lemma ContainsMText(s: string)
    ensures ContainsM(s).text == "regexp(\".*" + s + ".*\")"
  {
    assert Formatting.Quoted(".*" + s + ".*") == "\"" + ".*" + s + ".*" + "\"";
  }

  /** testOr, the values: containsM("Foo") OR eqM("Hello") rejects "X" and accepts "Hello" and "AFooA". */
  lemma OrScenario()
    ensures var or := OrOf([Leaf(ContainsM("Foo")), Leaf(EqM("Hello"))]);
      !Matches(or, "X") && Matches(or, "Hello") && Matches(or, "AFooA")
  {
    var foo, hello := Leaf(ContainsM("Foo")), Leaf(EqM("Hello"));
    BinaryMatches(foo, hello, "X");
    BinaryMatches(foo, hello, "Hello");
    BinaryMatches(foo, hello, "AFooA");
    ContainsMMatches("Foo", "X");
    ContainsMMatches("Foo", "AFooA");
    EqMMatches("Hello", "X");
    EqMMatches("Hello", "Hello");
    assert IsSubstring("Foo", "AFooA") by {
      IsSubstringIffOccurs("Foo", "AFooA");
      assert OccursAt("Foo", "AFooA", 1);
    }
  }

  /** testOr, the text: "(regexp(".*Foo.*") | "Hello")". */
  lemma OrScenarioText()
    ensures AsString(OrOf([Leaf(ContainsM("Foo")), Leaf(EqM("Hello"))])) == "(" + "regexp(\".*Foo.*\")" + " | " + "\"Hello\"" + ")"
  {
    var foo, hello := Leaf(ContainsM("Foo")), Leaf(EqM("Hello"));
    assert AsString(foo) == "regexp(\".*Foo.*\")" by { ContainsMText("Foo"); }
    assert AsString(hello) == "\"Hello\"";
    BinaryRendering(foo, hello);
  }

  /** testAnd, the values: containsM("lo") AND containsM("Hell") rejects "aloa" and "Hellas", accepts "Hello". */
  lemma AndScenario()
    ensures var and := AndOf([Leaf(ContainsM("lo")), Leaf(ContainsM("Hell"))]);
      !Matches(and, "aloa") && !Matches(and, "Hellas") && Matches(and, "Hello")
  {
    var lo, hell := Leaf(ContainsM("lo")), Leaf(ContainsM("Hell"));
    BinaryMatches(lo, hell, "aloa");
    BinaryMatches(lo, hell, "Hellas");
    BinaryMatches(lo, hell, "Hello");
    ContainsMMatches("lo", "aloa");
    ContainsMMatches("lo", "Hellas");
    ContainsMMatches("lo", "Hello");
    ContainsMMatches("Hell", "aloa");
    ContainsMMatches("Hell", "Hellas");
    ContainsMMatches("Hell", "Hello");
    AndScenarioSubstrings();
  }

  /** The pattern searches behind testAnd: "lo" and "Hell" both occur in "Hello"; "Hell" not in "aloa", "lo" not in "Hellas". */
  lemma AndScenarioSubstrings()
    ensures IsSubstring("lo", "Hello") && IsSubstring("Hell", "Hello")
    ensures !IsSubstring("Hell", "aloa") && !IsSubstring("lo", "Hellas")
  {
    IsSubstringIffOccurs("lo", "Hello");
    assert OccursAt("lo", "Hello", 3);
    IsSubstringIffOccurs("Hell", "Hello");
    assert OccursAt("Hell", "Hello", 0);
    SubstringCharsOccur("Hell", "aloa", 0);
    SubstringCharsOccur("lo", "Hellas", 1);
  }

  /** testAnd, the text: "(regexp(".*lo.*") & regexp(".*Hell.*"))". */
  lemma AndScenarioText()
    ensures AsString(AndOf([Leaf(ContainsM("lo")), Leaf(ContainsM("Hell"))])) == "(" + "regexp(\".*lo.*\")" + " & " + "regexp(\".*Hell.*\")" + ")"
  {
    var lo, hell := Leaf(ContainsM("lo")), Leaf(ContainsM("Hell"));
    assert AsString(lo) == "regexp(\".*lo.*\")" by { ContainsMText("lo"); }
    assert AsString(hell) == "regexp(\".*Hell.*\")" by { ContainsMText("Hell"); }
    BinaryRendering(lo, hell);
  }
}
