/** closeUnbalancedDelimiters of internal/agent/investigation_router.go: appending the closers a query lacks. */
module Delimiters {
  import opened Options

  datatype Kind = Paren | Bracket | Brace

  function Opener(k: Kind): char {
    match k case Paren => '(' case Bracket => '[' case Brace => '{'
  }

  function Closer(k: Kind): char {
    match k case Paren => ')' case Bracket => ']' case Brace => '}'
  }

  function After(k: Kind, balance: nat, c: char): nat {
    if c == Opener(k) then balance + 1 else if c == Closer(k) && balance > 0 then balance - 1 else balance
  }

  /** The balance of one kind after a scan that never goes below zero. */
  function Residual(k: Kind, q: string): nat {
    if q == "" then 0 else After(k, Residual(k, q[..|q| - 1]), q[|q| - 1])
  }

  function Repeat(c: char, n: nat): (s: string)
    ensures |s| == n
  {
    if n == 0 then "" else Repeat(c, n - 1) + [c]
  }

  /** The closers of the open parentheses, then of the brackets, then of the braces. */
  function Closers(q: string): string {
    Repeat(')', Residual(Paren, q)) + Repeat(']', Residual(Bracket, q)) + Repeat('}', Residual(Brace, q))
  }

  function Repaired(q: string): string { q + Closers(q) }

  method Balances(query: string, ghost residual: (Kind, string) -> nat) returns (balances: map<Kind, nat>)
    requires forall k :: residual(k, "") == 0
    requires forall k, i | 0 <= i < |query| ::
               residual(k, query[..i + 1]) == After(k, residual(k, query[..i]), query[i])
    ensures forall k :: k in balances && balances[k] == residual(k, query)
  {
    balances := map[Paren := 0, Bracket := 0, Brace := 0];
    assert query[..0] == "";
    forall k: Kind ensures k in balances && balances[k] == residual(k, query[..0]) {
      match k case Paren => case Bracket => case Brace =>
    }
    for i := 0 to |query|
      invariant forall k :: k in balances && balances[k] == residual(k, query[..i])
    {
      assert forall k :: residual(k, query[..i + 1]) == After(k, balances[k], query[i]);
      match query[i]
      case '(' => balances := balances[Paren := balances[Paren] + 1];
      case '[' => balances := balances[Bracket := balances[Bracket] + 1];
      case '{' => balances := balances[Brace := balances[Brace] + 1];
      case ')' => if balances[Paren] > 0 { balances := balances[Paren := balances[Paren] - 1]; }
      case ']' => if balances[Bracket] > 0 { balances := balances[Bracket := balances[Bracket] - 1]; }
      case '}' => if balances[Brace] > 0 { balances := balances[Brace := balances[Brace] - 1]; }
      case _ =>
    }
    assert query[..|query|] == query;
  }

  method CloseUnbalancedDelimiters(query: string) returns (repaired: string)
    ensures repaired == Repaired(query)
  {
    forall k, i | 0 <= i < |query|
      ensures Residual(k, query[..i + 1]) == After(k, Residual(k, query[..i]), query[i])
    {
      assert query[..i + 1][..i] == query[..i];
    }
    var balances := Balances(query, (k, s) => Residual(k, s));
    var pairs := [Paren, Bracket, Brace];
    repaired := query;
    for p := 0 to |pairs|
      invariant repaired == query + AppendedFor(balances, pairs[..p])
    {
      var closer, count := Closer(pairs[p]), balances[pairs[p]];
      ghost var before := repaired;
      for i := 0 to count
        invariant repaired == before + Repeat(closer, i)
      {
        repaired := repaired + [closer];
      }
      assert pairs[..p + 1][..p] == pairs[..p];
    }
    AppendedForAll(query, balances);
  }

  /** What the loop over `pairs` has appended. */
  ghost function AppendedFor(balances: map<Kind, nat>, pairs: seq<Kind>): string
    requires forall k :: k in balances
  {
    if pairs == [] then ""
    else
      var k := pairs[|pairs| - 1];
      AppendedFor(balances, pairs[..|pairs| - 1]) + Repeat(Closer(k), balances[k])
  }

  lemma AppendedForAll(query: string, balances: map<Kind, nat>)
    requires forall k :: k in balances && balances[k] == Residual(k, query)
    ensures AppendedFor(balances, [Paren, Bracket, Brace][..3]) == Closers(query)
  {
    var pairs := [Paren, Bracket, Brace];
    assert pairs[..3][..2] == pairs[..2] && pairs[..2][..1] == pairs[..1] && pairs[..1][..0] == [];
    assert AppendedFor(balances, pairs[..1]) == Repeat(')', balances[Paren]);
    assert AppendedFor(balances, pairs[..2]) == AppendedFor(balances, pairs[..1]) + Repeat(']', balances[Bracket]);
  }

  // ------------------------------------------------------------------ what the balance means

  /** Openers less closers of a kind, from position `i` on. */
  function Net(k: Kind, q: string, i: nat): int
    requires i <= |q|
  {
    if i == |q| then 0
    else
      var c := q[|q| - 1];
      Net(k, q[..|q| - 1], i) + if c == Opener(k) then 1 else if c == Closer(k) then -1 else 0
  }

  /** The balance is the greatest excess of openers over closers in any suffix. */
  lemma {:induction false} ResidualIsMaximum(k: Kind, q: string)
    ensures forall i | 0 <= i <= |q| :: Net(k, q, i) <= Residual(k, q)
    ensures exists i | 0 <= i <= |q| :: Net(k, q, i) == Residual(k, q)
  {
    if q == "" {
      assert Net(k, q, 0) == Residual(k, q);
    } else {
      var n := |q| - 1;
      var init, c := q[..n], q[n];
      ResidualIsMaximum(k, init);
      var d := if c == Opener(k) then 1 else if c == Closer(k) then -1 else 0;
      assert forall i | 0 <= i <= n :: Net(k, q, i) == Net(k, init, i) + d;
      var best :| 0 <= best <= n && Net(k, init, best) == Residual(k, init);
      if Residual(k, init) + d >= 0 {
        assert Net(k, q, best) == Residual(k, q);
      } else {
        assert Net(k, q, n + 1) == Residual(k, q);
      }
    }
  }

  function Occurrences(c: char, s: string): int { multiset(s)[c] }

  lemma {:induction false} NetCounts(k: Kind, q: string, i: nat)
    requires i <= |q|
    ensures Net(k, q, i) == Occurrences(Opener(k), q[i..]) - Occurrences(Closer(k), q[i..])
  {
    if i == |q| {
      assert q[i..] == [];
    } else {
      var n := |q| - 1;
      NetCounts(k, q[..n], i);
      assert q[i..] == q[..n][i..] + [q[n]];
      assert Opener(k) != Closer(k);
    }
  }

  /** Counted: a kind's balance is the greatest excess of its openers over its closers in any suffix. */
  lemma BalanceIsGreatestExcess(q: string, open: char, close: char, k: Kind)
    requires (k == Paren && open == '(' && close == ')') || (k == Bracket && open == '[' && close == ']')
             || (k == Brace && open == '{' && close == '}')
    ensures forall i | 0 <= i <= |q| :: Occurrences(open, q[i..]) - Occurrences(close, q[i..]) <= Residual(k, q)
    ensures exists i | 0 <= i <= |q| :: Occurrences(open, q[i..]) - Occurrences(close, q[i..]) == Residual(k, q)
  {
    ResidualIsMaximum(k, q);
    forall i | 0 <= i <= |q|
      ensures Net(k, q, i) == Occurrences(open, q[i..]) - Occurrences(close, q[i..])
    {
      NetCounts(k, q, i);
    }
  }

  // ------------------------------------------------------------------ the repair

  lemma ResidualSnoc(k: Kind, q: string, c: char)
    ensures Residual(k, q + [c]) == After(k, Residual(k, q), c)
  {
    assert (q + [c])[..|q|] == q;
  }

  lemma {:induction false} ResidualAfterClosers(k: Kind, j: Kind, q: string, n: nat)
    ensures Residual(k, q + Repeat(Closer(j), n)) ==
              if k != j then Residual(k, q) else if n <= Residual(k, q) then Residual(k, q) - n else 0
  {
    if n == 0 {
      assert q + "" == q;
    } else {
      ResidualAfterClosers(k, j, q, n - 1);
      ResidualSnoc(k, q + Repeat(Closer(j), n - 1), Closer(j));
      assert q + Repeat(Closer(j), n) == q + Repeat(Closer(j), n - 1) + [Closer(j)];
    }
  }

  predicate Balanced(q: string) { forall k :: Residual(k, q) == 0 }

  lemma ResidualOfRepaired(k: Kind, q: string)
    ensures Residual(k, Repaired(q)) == 0
  {
    var a, b, c := Residual(Paren, q), Residual(Bracket, q), Residual(Brace, q);
    var q1 := q + Repeat(Closer(Paren), a);
    var q2 := q1 + Repeat(Closer(Bracket), b);
    ResidualAfterClosers(k, Paren, q, a);
    ResidualAfterClosers(k, Bracket, q1, b);
    ResidualAfterClosers(k, Brace, q2, c);
    assert Repaired(q) == q2 + Repeat(Closer(Brace), c);
  }

  /** A repaired query is balanced in each kind, starts with the query, and is not repaired again. */
  lemma RepairedIsBalanced(q: string)
    ensures q <= Repaired(q) && Balanced(Repaired(q)) && Repaired(Repaired(q)) == Repaired(q)
  {
    var r := Repaired(q);
    forall k ensures Residual(k, r) == 0 {
      ResidualOfRepaired(k, q);
    }
    assert Closers(r) == "";
  }

  function Count(c: char, s: string): nat {
    if s == "" then 0 else Count(c, s[..|s| - 1]) + if s[|s| - 1] == c then 1 else 0
  }

  lemma {:induction false} AppendedClosers(k: Kind, q: string, t: string)
    ensures Residual(k, q + t) + Count(Closer(k), t) >= Residual(k, q)
  {
    if t == "" {
      assert q + t == q;
    } else {
      var n := |t| - 1;
      AppendedClosers(k, q, t[..n]);
      ResidualSnoc(k, q + t[..n], t[n]);
      assert q + t == q + t[..n] + [t[n]];
    }
  }

  lemma {:induction false} CountsAtMostLength(t: string)
    ensures Count(')', t) + Count(']', t) + Count('}', t) <= |t|
  {
    if t == "" {
    } else {
      CountsAtMostLength(t[..|t| - 1]);
    }
  }

  /** No shorter text makes the query balanced by being appended. */
  lemma FewestClosers(q: string, t: string)
    requires Balanced(q + t)
    ensures |Closers(q)| <= |t|
  {
    AppendedClosers(Paren, q, t);
    AppendedClosers(Bracket, q, t);
    AppendedClosers(Brace, q, t);
    CountsAtMostLength(t);
  }

  // ------------------------------------------------------------------ nesting

  /** The delimiters still open after reading `q` from an open stack; None when a closer does not fit. */
  function Open(stack: string, q: string): Option<string>
    decreases q
  {
    if q == "" then Some(stack)
    else
      var c := q[0];
      if c in "([{" then Open(stack + [c], q[1..])
      else if c !in ")]}" then Open(stack, q[1..])
      else if stack != "" && Fits(stack[|stack| - 1], c) then Open(stack[..|stack| - 1], q[1..])
      else None
  }

  predicate Fits(open: char, close: char) { exists k: Kind :: open == Opener(k) && close == Closer(k) }

  predicate WellNested(q: string) { Open("", q) == Some("") }

  function Then(o: Option<string>, q: string): Option<string> {
    if o.None? then None else Open(o.value, q)
  }

  lemma {:induction false} OpenConcat(stack: string, x: string, y: string)
    ensures Open(stack, x + y) == Then(Open(stack, x), y)
    decreases |x|
  {
    if x == "" {
      assert x + y == y;
    } else {
      var c := x[0];
      assert (x + y)[1..] == x[1..] + y && (x + y)[0] == c;
      if c in "([{" {
        OpenConcat(stack + [c], x[1..], y);
      } else if c !in ")]}" {
        OpenConcat(stack, x[1..], y);
      } else if stack != "" && Fits(stack[|stack| - 1], c) {
        OpenConcat(stack[..|stack| - 1], x[1..], y);
      }
    }
  }

  lemma FitsOnly(k: Kind, c: char)
    ensures Fits(c, Closer(k)) <==> c == Opener(k)
  {
  }

  lemma OpenCloser(k: Kind, stack: string)
    ensures Open(stack, [Closer(k)]) ==
              if stack != "" && stack[|stack| - 1] == Opener(k) then Some(stack[..|stack| - 1]) else None
  {
    if stack != "" {
      FitsOnly(k, stack[|stack| - 1]);
      assert [Closer(k)][1..] == "";
    }
  }

  /** Closing `n` times works exactly on a stack topped by `n` openers of the kind. */
  lemma {:induction false} OpenClosers(k: Kind, stack: string, n: nat, rest: string)
    ensures Open(stack, Repeat(Closer(k), n)) == Some(rest) <==> stack == rest + Repeat(Opener(k), n)
  {
    if n == 0 {
      assert rest + "" == rest;
    } else {
      OpenClosers(k, stack, n - 1, rest + [Opener(k)]);
      OpenConcat(stack, Repeat(Closer(k), n - 1), [Closer(k)]);
      RepeatShift(Opener(k), n - 1);
      assert rest + [Opener(k)] + Repeat(Opener(k), n - 1) == rest + Repeat(Opener(k), n);
      var o := Open(stack, Repeat(Closer(k), n - 1));
      if o.Some? {
        OpenCloser(k, o.value);
        assert o.value != "" ==> o.value == o.value[..|o.value| - 1] + [o.value[|o.value| - 1]];
        assert (rest + [Opener(k)])[..|rest|] == rest;
      }
    }
  }

  lemma {:induction false} RepeatShift(c: char, n: nat)
    ensures [c] + Repeat(c, n) == Repeat(c, n + 1)
  {
    if n == 0 {
    } else {
      RepeatShift(c, n - 1);
      assert [c] + (Repeat(c, n - 1) + [c]) == [c] + Repeat(c, n - 1) + [c];
    }
  }

  /** Braces below brackets below parentheses. */
  function OpenersOf(q: string): string {
    Repeat('{', Residual(Brace, q)) + Repeat('[', Residual(Bracket, q)) + Repeat('(', Residual(Paren, q))
  }

  /** Balancing each kind on its own nests the delimiters exactly when the query's closers all fit and its open
      delimiters are braces, then brackets, then parentheses. */
  lemma RepairedIsNestedIff(q: string)
    ensures WellNested(Repaired(q)) <==> Open("", q) == Some(OpenersOf(q))
  {
    var a, b, c := Residual(Paren, q), Residual(Bracket, q), Residual(Brace, q);
    OpenConcat("", q, Closers(q));
    var o := Open("", q);
    if o.Some? {
      ClosersFitIff(o.value, a, b, c);
    }
  }

  lemma ClosersFitIff(stack: string, a: nat, b: nat, c: nat)
    ensures Open(stack, Repeat(')', a) + Repeat(']', b) + Repeat('}', c)) == Some("") <==>
            stack == Repeat('{', c) + Repeat('[', b) + Repeat('(', a)
  {
    var s1 := Repeat('{', c);
    var s2 := s1 + Repeat('[', b);
    var x, y, z := Repeat(')', a), Repeat(']', b), Repeat('}', c);
    OpenConcat(stack, x + y, z);
    OpenConcat(stack, x, y);
    var o1 := Open(stack, x);
    var o2 := Then(o1, y);
    OpenClosers(Paren, stack, a, s2);
    if o1.Some? {
      OpenClosers(Bracket, o1.value, b, s1);
      OpenClosers(Paren, stack, a, o1.value);
    }
    if o2.Some? {
      OpenClosers(Brace, o2.value, c, "");
      OpenClosers(Bracket, o1.value, b, o2.value);
      assert "" + Repeat('{', c) == Repeat('{', c);
    }
    OpenClosers(Bracket, s2, b, s1);
    OpenClosers(Brace, s1, c, "");
    assert "" + Repeat('{', c) == s1;
  }

  /** "([" becomes "([)]": balanced in each kind, not nested. */
  lemma RepairCanCross()
    ensures Repaired("([") == "([)]" && !WellNested(Repaired("(["))
  {
    ResidualsOfTwo();
    Once(')');
    Once(']');
    Once('[');
    Once('(');
    OpenOfTwo();
    RepairedIsNestedIff("([");
    assert OpenersOf("([") == "" + "[" + "(";
    assert Closers("([") == ")" + "]" + "";
  }

  lemma ResidualsOfTwo()
    ensures forall k :: Residual(k, "([") == if k == Brace then 0 else 1
  {
    forall k ensures Residual(k, "([") == if k == Brace then 0 else 1 {
      ResidualSnoc(k, "", '(');
      ResidualSnoc(k, "(", '[');
      assert "" + "(" == "(" && "(" + "[" == "([";
    }
  }

  lemma Once(c: char)
    ensures Repeat(c, 1) == [c] && Repeat(c, 0) == ""
  {
  }

  lemma OpenOfTwo()
    ensures Open("", "([") == Some("([")
  {
    var q := "([";
    assert q[1..] == "[" && "["[1..] == "";
    assert Open("([", "") == Some("([");
    assert "(" + "[" == "([" && Open("(", "[") == Open("([", "");
    assert "" + "(" == "(";
  }
}
