/** The string operations of the Go standard library that the model needs, on sequences of characters. */
module Text {

  /** unicode.IsSpace. */
  predicate IsSpace(c: char) {
    || '\t' <= c <= '\r' || c == ' ' || c == '\U{0085}' || c == '\U{00A0}' || c == '\U{1680}'
    || '\U{2000}' <= c <= '\U{200A}' || c == '\U{2028}' || c == '\U{2029}' || c == '\U{202F}'
    || c == '\U{205F}' || c == '\U{3000}'
  }

  /** Of the ASCII characters the six usual ones are spaces. */
  lemma AsciiSpace(c: char)
    requires c < '\U{0080}'
    ensures IsSpace(c) <==> c in ['\t', '\n', '\U{000B}', '\U{000C}', '\r', ' ']
  {
  }

  function TrimLeft(s: string): string {
    if s != [] && IsSpace(s[0]) then TrimLeft(s[1..]) else s
  }

  function TrimRight(s: string): string {
    if s != [] && IsSpace(s[|s| - 1]) then TrimRight(s[..|s| - 1]) else s
  }

  /** strings.TrimSpace. */
  function TrimSpace(s: string): string { TrimRight(TrimLeft(s)) }

  predicate AllSpace(s: string) { forall c <- s :: IsSpace(c) }

  lemma {:induction false} TrimLeftEmpty(s: string)
    ensures TrimLeft(s) == "" <==> AllSpace(s)
    ensures TrimLeft(s) != "" ==> !IsSpace(TrimLeft(s)[0])
  {
    if s != "" && IsSpace(s[0]) {
      TrimLeftEmpty(s[1..]);
      assert forall c :: c in s <==> c == s[0] || c in s[1..];
    } else if s != "" {
      assert s[0] in s;
    }
  }

  lemma {:induction false} TrimRightEnds(s: string)
    requires s != "" && !IsSpace(s[0])
    ensures var t := TrimRight(s); t != "" && t[0] == s[0] && !IsSpace(t[|t| - 1])
  {
    if IsSpace(s[|s| - 1]) {
      TrimRightEnds(s[..|s| - 1]);
    }
  }

  predicate Trim(s: string) { s != "" ==> !IsSpace(s[0]) && !IsSpace(s[|s| - 1]) }

  /** TrimSpace leaves no outer space, and leaves alone what has none. */
  lemma TrimSpaceIsTrim(s: string)
    ensures Trim(TrimSpace(s))
    ensures Trim(s) ==> TrimSpace(s) == s
  {
    TrimLeftEmpty(s);
    if TrimLeft(s) != "" {
      TrimRightEnds(TrimLeft(s));
    }
  }

  lemma {:induction false} TrimLeftSplits(s: string)
    ensures |TrimLeft(s)| <= |s| && s[|s| - |TrimLeft(s)|..] == TrimLeft(s)
    ensures AllSpace(s[..|s| - |TrimLeft(s)|])
  {
    if s != "" && IsSpace(s[0]) {
      TrimLeftSplits(s[1..]);
      var k := |s| - |TrimLeft(s)|;
      assert s[..k] == [s[0]] + s[1..][..k - 1];
    }
  }

  lemma {:induction false} TrimRightSplits(s: string)
    ensures TrimRight(s) <= s && AllSpace(s[|TrimRight(s)|..])
  {
    if s != "" && IsSpace(s[|s| - 1]) {
      TrimRightSplits(s[..|s| - 1]);
      var k := |TrimRight(s)|;
      assert s[k..] == s[..|s| - 1][k..] + [s[|s| - 1]];
    }
  }

  /** TrimSpace takes off nothing but outer space. */
  lemma {:induction false} TrimLeftSkips(before: string, s: string)
    requires AllSpace(before)
    ensures TrimLeft(before + s) == TrimLeft(s)
  {
    if before == "" {
      assert before + s == s;
    } else {
      assert (before + s)[1..] == before[1..] + s;
      TrimLeftSkips(before[1..], s);
    }
  }

  lemma {:induction false} TrimRightSkips(s: string, after: string)
    requires AllSpace(after)
    ensures TrimRight(s + after) == TrimRight(s)
  {
    if after == "" {
      assert s + after == s;
    } else {
      var n := |after| - 1;
      assert (s + after)[..|s + after| - 1] == s + after[..n];
      TrimRightSkips(s, after[..n]);
    }
  }

  /** Trimming takes off exactly the outer space. */
  lemma TrimSpaceAround(before: string, core: string, after: string)
    requires AllSpace(before) && AllSpace(after) && Trim(core)
    ensures TrimSpace(before + core + after) == core
  {
    Regroup(before, core, after);
    TrimLeftSkips(before, core + after);
    if core == "" {
      assert core + after == after;
      TrimLeftEmpty(after);
    } else {
      assert TrimLeft(core + after) == core + after;
      TrimRightSkips(core, after);
    }
  }

  lemma TrimSpaceSplits(s: string) returns (pre: string, post: string)
    ensures s == pre + TrimSpace(s) + post && AllSpace(pre) && AllSpace(post)
  {
    var t := TrimLeft(s);
    TrimLeftSplits(s);
    TrimRightSplits(t);
    pre, post := s[..|s| - |t|], t[|TrimRight(t)|..];
  }

  /** strings.ToLower, rune by rune. */
  function ToLower(lower: char -> char, s: string): (t: string)
    ensures |t| == |s|
  {
    seq(|s|, i requires 0 <= i < |s| => lower(s[i]))
  }

  /** `needle` occurs in `s` at position `i`. */
  predicate OccursAt(s: string, needle: string, i: nat) { i <= |s| && needle <= s[i..] }

  /** strings.Contains. */
  predicate Contains(s: string, needle: string) {
    exists i | 0 <= i <= |s| :: OccursAt(s, needle, i)
  }

  /** strings.Index of a needle that is not empty, with |s| standing for "not found": see IndexIsFirst. */
  function Index(s: string, needle: string): (i: nat)
    requires needle != ""
    ensures i <= |s|
  {
    IndexFrom(s, needle, 0)
  }

  /** The first position at or after `from` where `needle` occurs. */
  function IndexFrom(s: string, needle: string, from: nat): (i: nat)
    requires needle != "" && from <= |s|
    ensures from <= i <= |s|
    decreases |s| - from
  {
    if from == |s| || OccursAt(s, needle, from) then from else IndexFrom(s, needle, from + 1)
  }

  lemma {:induction false} IndexFromIsFirst(s: string, needle: string, from: nat)
    requires needle != "" && from <= |s|
    ensures var i := IndexFrom(s, needle, from);
            && (i < |s| ==> OccursAt(s, needle, i))
            && (forall j | from <= j < i :: !OccursAt(s, needle, j))
    decreases |s| - from
  {
    if from < |s| && !OccursAt(s, needle, from) {
      IndexFromIsFirst(s, needle, from + 1);
    }
  }

  /** Index finds the first occurrence, and finds none exactly when there is none. */
  lemma IndexIsFirst(s: string, needle: string)
    requires needle != ""
    ensures var i := Index(s, needle);
            && (i < |s| <==> Contains(s, needle))
            && (i < |s| ==> OccursAt(s, needle, i) && i + |needle| <= |s|)
            && (forall j | 0 <= j < i :: !OccursAt(s, needle, j))
  {
    IndexFromIsFirst(s, needle, 0);
    var i := Index(s, needle);
    if i < |s| {
      assert |s[i..]| >= |needle|;
    }
    assert !OccursAt(s, needle, |s|);
  }

  lemma Regroup<T>(a: seq<T>, b: seq<T>, c: seq<T>)
    ensures a + (b + c) == a + b + c
  {
  }
}
