/** The knowledge base's token index: pkg/kb/index.go. */
module TokenIndex {
  import opened Options
  import opened StableSorting
  import opened Text

  /** unicode.IsLetter, IsNumber or '_'; unicode.ToLower; and the length of a rune in UTF-8. */
  datatype Alphabet = Alphabet(word: char -> bool, lower: char -> char, size: char -> nat)

  function Size(abc: Alphabet, s: string): nat {
    if s == [] then 0 else Size(abc, s[..|s| - 1]) + abc.size(s[|s| - 1])
  }

  // ------------------------------------------------------------------ tokens of a text

  predicate AllWord(abc: Alphabet, text: string, i: int, j: int)
    requires 0 <= i <= j <= |text|
  {
    forall k | i <= k < j :: abc.word(text[k])
  }

  predicate MaximalRun(abc: Alphabet, text: string, i: int, j: int) {
    && 0 <= i < j <= |text|
    && AllWord(abc, text, i, j)
    && (i == 0 || !abc.word(text[i - 1]))
    && (j == |text| || !abc.word(text[j]))
  }

  /** A run counts when its lower-cased form is at least two bytes long. */
  predicate Counts(abc: Alphabet, run: string) { Size(abc, ToLower(abc.lower, run)) >= 2 }

  function TokenOf(abc: Alphabet, run: string): string { ToLower(abc.lower, ToLower(abc.lower, run)) }

  ghost predicate IsToken(abc: Alphabet, text: string, i: int, j: int, t: string) {
    MaximalRun(abc, text, i, j) && Counts(abc, text[i..j]) && t == TokenOf(abc, text[i..j])
  }

  /** The tokens of the maximal runs that end before `end`. */
  ghost function TokensBefore(abc: Alphabet, text: string, end: int): set<string> {
    set i, j | 0 <= i < |text| && 0 <= j <= |text| && j < end && MaximalRun(abc, text, i, j) && Counts(abc, text[i..j])
        :: TokenOf(abc, text[i..j])
  }

  ghost function Tokens(abc: Alphabet, text: string): set<string> { TokensBefore(abc, text, |text| + 1) }

  /** Declaratively: a token is a run of word characters between others or the ends of the text, at least two bytes
      long once lower-cased, and lower-cased again. */
  lemma TokensAreRuns(abc: Alphabet, text: string, t: string)
    ensures t in Tokens(abc, text) <==> exists i, j :: Spelled(abc, text, i, j, t)
  {
    if i, j :| Spelled(abc, text, i, j, t) {
      BytesAreSize(abc, text, i, j);
      assert t == TokenOf(abc, text[i..j]);
      assert IsToken(abc, text, i, j, t);
      assert t in Tokens(abc, text);
    }
    if t in Tokens(abc, text) {
      var i, j :| 0 <= i < |text| && 0 <= j <= |text| && MaximalRun(abc, text, i, j) && Counts(abc, text[i..j])
                  && t == TokenOf(abc, text[i..j]);
      BytesAreSize(abc, text, i, j);
      assert Spelled(abc, text, i, j, t);
    }
  }

  ghost predicate Spelled(abc: Alphabet, text: string, i: int, j: int, t: string) {
    && 0 <= i < j <= |text|
    && (forall k | i <= k < j :: abc.word(text[k]))
    && (i > 0 ==> !abc.word(text[i - 1])) && (j < |text| ==> !abc.word(text[j]))
    && |t| == j - i && (forall k | 0 <= k < |t| :: t[k] == abc.lower(abc.lower(text[i + k])))
    && Bytes(abc, text, i, j) >= 2
  }

  /** The bytes of the lower-cased characters from `i` to `j`. */
  function Bytes(abc: Alphabet, text: string, i: int, j: int): nat
    requires 0 <= i <= j <= |text|
  {
    if i == j then 0 else Bytes(abc, text, i, j - 1) + abc.size(abc.lower(text[j - 1]))
  }

  lemma {:induction false} BytesAreSize(abc: Alphabet, text: string, i: int, j: int)
    requires 0 <= i <= j <= |text|
    ensures Bytes(abc, text, i, j) == Size(abc, ToLower(abc.lower, text[i..j]))
    decreases j - i
  {
    var low := ToLower(abc.lower, text[i..j]);
    if i == j {
      assert low == [];
    } else {
      BytesAreSize(abc, text, i, j - 1);
      assert low[..|low| - 1] == ToLower(abc.lower, text[i..j - 1]);
    }
  }

  /** What a flush adds when the run [start, i) has just ended. */
  ghost function Flushed(abc: Alphabet, run: string): set<string> {
    if Counts(abc, run) then {TokenOf(abc, run)} else {}
  }

  ghost predicate InRun(abc: Alphabet, text: string, start: int, i: int) {
    0 <= start <= i <= |text| && AllWord(abc, text, start, i) && (start == 0 || !abc.word(text[start - 1]))
  }

  lemma RunEndingHere(abc: Alphabet, text: string, start: int, i: int, s: int, e: int)
    requires InRun(abc, text, start, i) && (i == |text| || !abc.word(text[i]))
    requires MaximalRun(abc, text, s, e) && start <= e <= i
    ensures s == start && e == i
  {
    assert abc.word(text[e - 1]);
    assert forall k | start <= k < i :: abc.word(text[k]);
    assert s > start ==> start <= s - 1 < i;
  }

  lemma FlushStep(abc: Alphabet, text: string, start: int, i: int)
    requires InRun(abc, text, start, i) && (i == |text| || !abc.word(text[i]))
    ensures TokensBefore(abc, text, i + 1) == TokensBefore(abc, text, start) + Flushed(abc, text[start..i])
  {
    var before, after := TokensBefore(abc, text, start), TokensBefore(abc, text, i + 1);
    forall t | t in after ensures t in before + Flushed(abc, text[start..i]) {
      var s, e :| 0 <= s < |text| && 0 <= e <= |text| && e < i + 1 && MaximalRun(abc, text, s, e)
                  && Counts(abc, text[s..e]) && t == TokenOf(abc, text[s..e]);
      if e >= start {
        RunEndingHere(abc, text, start, i, s, e);
      }
    }
    if start < i {
      assert MaximalRun(abc, text, start, i);
    } else {
      assert text[start..i] == [];
      assert ToLower(abc.lower, []) == [];
    }
  }

  lemma LowerNext(abc: Alphabet, text: string, start: int, i: int)
    requires 0 <= start <= i < |text|
    ensures ToLower(abc.lower, text[start..i + 1]) == ToLower(abc.lower, text[start..i]) + [abc.lower(text[i])]
  {
  }

  method Tokenize(abc: Alphabet, text: string) returns (tokens: set<string>)
    ensures tokens == Tokens(abc, text)
  {
    tokens := {};
    var b := "";
    ghost var start := 0;
    for i := 0 to |text|
      invariant InRun(abc, text, start, i)
      invariant b == ToLower(abc.lower, text[start..i])
      invariant tokens == TokensBefore(abc, text, start)
    {
      if abc.word(text[i]) {
        LowerNext(abc, text, start, i);
        b := b + [abc.lower(text[i])];
        continue;
      }
      FlushStep(abc, text, start, i);
      if Size(abc, b) >= 2 {
        tokens := tokens + {ToLower(abc.lower, b)};
      }
      b := "";
      start := i + 1;
    }
    FlushStep(abc, text, start, |text|);
    if Size(abc, b) >= 2 {
      tokens := tokens + {ToLower(abc.lower, b)};
    }
  }

  // ------------------------------------------------------------------ the order of strings

  /** Lexicographic order by code point, which is also the byte order of UTF-8. */
  predicate Before(a: string, b: string) {
    if b == [] then false
    else if a == [] then true
    else if a[0] != b[0] then a[0] < b[0]
    else Before(a[1..], b[1..])
  }

  lemma {:induction false} BeforeAsymmetric(a: string, b: string)
    ensures Before(a, b) ==> !Before(b, a)
  {
    if a != [] && b != [] {
      BeforeAsymmetric(a[1..], b[1..]);
    }
  }

  lemma {:induction false} BeforeTransitive(a: string, b: string, c: string)
    requires !Before(b, a) && !Before(c, b)
    ensures !Before(c, a)
  {
    if a != [] && b != [] && c != [] && a[0] == b[0] == c[0] {
      BeforeTransitive(a[1..], b[1..], c[1..]);
    }
  }

  lemma {:induction false} BeforeTotal(a: string, b: string)
    requires a != b
    ensures Before(a, b) || Before(b, a)
  {
    if a != [] && b != [] && a[0] == b[0] {
      assert a == [a[0]] + a[1..] && b == [b[0]] + b[1..];
      BeforeTotal(a[1..], b[1..]);
    }
  }

  /** One string is before another when it is a proper beginning of it or smaller where they first differ. */
  lemma {:induction false} BeforeIff(a: string, b: string)
    ensures Before(a, b) <==> (|a| < |b| && a == b[..|a|]) || exists k :: SmallerAt(a, b, k)
  {
    if a == [] || b == [] {
    } else {
      BeforeIff(a[1..], b[1..]);
      assert a == [a[0]] + a[1..] && b == [b[0]] + b[1..];
      if a[0] == b[0] {
        if |a| < |b| && a[1..] == b[1..][..|a| - 1] {
          assert b[..|a|] == [b[0]] + b[1..][..|a| - 1];
        }
        if |a| < |b| && a == b[..|a|] {
          assert a[1..] == b[1..][..|a| - 1];
        }
        if k :| SmallerAt(a[1..], b[1..], k) {
          assert a[..k + 1] == [a[0]] + a[1..][..k] && b[..k + 1] == [b[0]] + b[1..][..k];
          assert SmallerAt(a, b, k + 1);
        }
        if k :| SmallerAt(a, b, k) {
          assert k > 0;
          assert a[1..][..k - 1] == a[..k][1..] && b[1..][..k - 1] == b[..k][1..];
          assert SmallerAt(a[1..], b[1..], k - 1);
        }
      } else {
        assert SmallerAt(a, b, 0) <==> a[0] < b[0];
        assert forall k | k > 0 && SmallerAt(a, b, k) :: a[..k][0] == b[..k][0];
      }
    }
  }

  predicate SmallerAt(a: string, b: string, k: int) {
    0 <= k < |a| && k < |b| && a[..k] == b[..k] && a[k] < b[k]
  }

  predicate Increasing(xs: seq<string>) { forall i, j | 0 <= i < j < |xs| :: Before(xs[i], xs[j]) }

  ghost function Elements(xs: seq<string>): set<string> { set x | x in xs }

  lemma {:induction false} IncreasingIsUnique(xs: seq<string>, ys: seq<string>)
    requires Increasing(xs) && Increasing(ys) && Elements(xs) == Elements(ys)
    ensures xs == ys
  {
    assert xs == [] ==> Elements(xs) == {};
    assert ys != [] ==> ys[0] in Elements(ys);
    if xs == [] {
    } else {
      assert xs[0] in Elements(xs) && xs[0] in Elements(ys);
      var k :| 0 <= k < |ys| && ys[k] == xs[0];
      assert ys[0] in Elements(ys) && ys[0] in Elements(xs);
      var l :| 0 <= l < |xs| && xs[l] == ys[0];
      BeforeAsymmetric(xs[0], ys[0]);
      assert xs[0] == ys[0];
      TailElements(xs);
      TailElements(ys);
      IncreasingIsUnique(xs[1..], ys[1..]);
      assert xs == [xs[0]] + xs[1..] && ys == [ys[0]] + ys[1..];
    }
  }

  lemma TailElements(xs: seq<string>)
    requires Increasing(xs) && xs != []
    ensures Increasing(xs[1..]) && Elements(xs[1..]) == Elements(xs) - {xs[0]}
  {
    BeforeAsymmetric(xs[0], xs[0]);
    forall x | x in Elements(xs) - {xs[0]} ensures x in xs[1..] {
      var k :| 0 <= k < |xs| && xs[k] == x;
      assert xs[1..][k - 1] == x;
    }
    forall x | x in xs[1..] ensures x in Elements(xs) && x != xs[0] {
      var k :| 0 <= k < |xs[1..]| && xs[1..][k] == x;
      assert xs[k + 1] == x;
    }
  }

  /** sort.Strings. */
  ghost predicate SortsStrings(sort: seq<string> -> seq<string>) {
    forall xs :: Sorted(Before, sort(xs)) && multiset(sort(xs)) == multiset(xs)
  }

  predicate Distinct(xs: seq<string>) { forall i, j | 0 <= i < j < |xs| :: xs[i] != xs[j] }

  lemma DistinctSorted(xs: seq<string>, ys: seq<string>)
    requires Distinct(xs) && multiset(ys) == multiset(xs) && Sorted(Before, ys)
    ensures Increasing(ys) && Elements(ys) == Elements(xs)
  {
    forall x ensures x in ys <==> x in xs {
      assert x in multiset(ys) <==> x in multiset(xs);
    }
    forall i, j | 0 <= i < j < |ys| ensures Before(ys[i], ys[j]) {
      DistinctCounts(xs, ys[i]);
      if ys[i] == ys[j] {
        TwiceCounts(ys, i, j);
      } else {
        BeforeTotal(ys[i], ys[j]);
      }
    }
  }

  lemma {:induction false} DistinctCounts(xs: seq<string>, x: string)
    requires Distinct(xs)
    ensures multiset(xs)[x] <= 1
  {
    if xs == [] {
    } else {
      DistinctCounts(xs[1..], x);
      assert xs == [xs[0]] + xs[1..];
      assert xs[0] !in xs[1..];
    }
  }

  lemma TwiceCounts(xs: seq<string>, i: int, j: int)
    requires 0 <= i < j < |xs| && xs[i] == xs[j]
    ensures multiset(xs)[xs[i]] >= 2
  {
    assert xs == xs[..j] + xs[j..];
    assert xs[..j][i] in xs[..j] && xs[j..][0] in xs[j..];
  }

  /** A set read out in any order and sorted. */
  method SortedElements(tokens: set<string>, sort: seq<string> -> seq<string>) returns (result: seq<string>)
    requires SortsStrings(sort)
    ensures Increasing(result) && Elements(result) == tokens
  {
    result := [];
    var left := tokens;
    while left != {}
      invariant Distinct(result) && Elements(result) + left == tokens && Elements(result) !! left
      decreases left
    {
      var token :| token in left;
      result := result + [token];
      left := left - {token};
    }
    DistinctSorted(result, sort(result));
    result := sort(result);
  }

  /** The same scan, then the sorted tokens. */
  method TokensFromText(abc: Alphabet, text: string, sort: seq<string> -> seq<string>) returns (result: seq<string>)
    requires SortsStrings(sort)
    ensures Increasing(result) && Elements(result) == Tokens(abc, text)
  {
    var tokens: set<string> := {};
    var b := "";
    ghost var start := 0;
    for i := 0 to |text|
      invariant InRun(abc, text, start, i)
      invariant b == ToLower(abc.lower, text[start..i])
      invariant tokens == TokensBefore(abc, text, start)
    {
      if abc.word(text[i]) {
        LowerNext(abc, text, start, i);
        b := b + [abc.lower(text[i])];
        continue;
      }
      FlushStep(abc, text, start, i);
      if Size(abc, b) >= 2 {
        tokens := tokens + {ToLower(abc.lower, b)};
      }
      b := "";
      start := i + 1;
    }
    FlushStep(abc, text, start, |text|);
    if Size(abc, b) >= 2 {
      tokens := tokens + {ToLower(abc.lower, b)};
    }
    result := SortedElements(tokens, sort);
  }

  // ------------------------------------------------------------------ sections and their scores

  /** A section; `tokenSet` is None until it is first needed. */
  datatype Section = Section(id: string, title: string, content: string, path: string,
                             tokens: seq<string>, tokenSet: Option<set<string>>)

  ghost function Ensured(s: Section): Section {
    if s.tokenSet.None? then s.(tokenSet := Some(Elements(s.tokens))) else s
  }

  method EnsureTokenSet(s: Section) returns (r: Section)
    ensures r == Ensured(s)
  {
    r := s;
    if s.tokenSet.None? {
      var tokenSet := {};
      for i := 0 to |s.tokens|
        invariant tokenSet == Elements(s.tokens[..i])
      {
        tokenSet := tokenSet + {s.tokens[i]};
      }
      assert s.tokens[..|s.tokens|] == s.tokens;
      r := s.(tokenSet := Some(tokenSet));
    }
  }

  /** A section whose tokens are those of its title, a newline and its body, built or not yet. */
  ghost predicate Indexed(abc: Alphabet, s: Section) {
    && Increasing(s.tokens)
    && Elements(s.tokens) == Tokens(abc, s.title + "\n" + s.content)
    && (s.tokenSet.Some? ==> s.tokenSet.value == Elements(s.tokens))
  }

  /** The section that flush() appends while splitting a document. */
  method NewSection(abc: Alphabet, id: string, title: string, body: string, path: string,
                    sort: seq<string> -> seq<string>) returns (s: Section)
    requires SortsStrings(sort)
    ensures s.id == id && s.title == title && s.content == body && s.path == path
    ensures Indexed(abc, s) && s.tokenSet.Some?
  {
    var tokens := TokensFromText(abc, title + "\n" + body, sort);
    s := EnsureTokenSet(Section(id, title, body, path, tokens, None));
  }

  /** What the saved file holds of a section: everything but the set. */
  function Saved(s: Section): Section { s.(tokenSet := None) }

  /** The sum of `weight` over a set, in no particular order. */
  ghost function Total(weight: string -> int, keys: set<string>): int {
    if keys == {} then 0
    else var k :| k in keys; weight(k) + Total(weight, keys - {k})
  }

  lemma {:induction false} TotalWithout(weight: string -> int, keys: set<string>, k: string)
    requires k in keys
    ensures Total(weight, keys) == weight(k) + Total(weight, keys - {k})
    decreases keys
  {
    var first :| first in keys && Total(weight, keys) == weight(first) + Total(weight, keys - {first});
    if first != k {
      TotalWithout(weight, keys - {first}, k);
      TotalWithout(weight, keys - {k}, first);
      assert keys - {first} - {k} == keys - {k} - {first};
    }
  }

  function WeightIn(weights: map<string, int>): string -> int { t => if t in weights then weights[t] else 0 }

  /** The weight of a text: the total over the tokens that have one. */
  ghost function TextScore(abc: Alphabet, text: string, weights: map<string, int>): int {
    Total(WeightIn(weights), weights.Keys * Tokens(abc, text))
  }

  /** What scoreSection computes, whatever order the map is walked in. */
  ghost function Score(s: Section, weights: map<string, int>): int {
    Total(WeightIn(weights), weights.Keys * Ensured(s).tokenSet.value)
  }

  /** One more weighted token adds its weight exactly when the section has the token. */
  lemma ScoreAdds(s: Section, weights: map<string, int>, token: string, w: int)
    requires token !in weights
    ensures Score(s, map[]) == 0
    ensures Score(s, weights[token := w])
         == Score(s, weights)
            + if token in (if s.tokenSet.Some? then s.tokenSet.value else Elements(s.tokens)) then w else 0
  {
    var has := Ensured(s).tokenSet.value;
    var more := weights[token := w];
    var keys, moreKeys := weights.Keys * has, more.Keys * has;
    SameTotal(WeightIn(weights), WeightIn(more), keys);
    if token in has {
      TotalWithout(WeightIn(more), moreKeys, token);
      assert moreKeys - {token} == keys;
    } else {
      assert moreKeys == keys;
    }
  }

  lemma {:induction false} SameTotal(f: string -> int, g: string -> int, keys: set<string>)
    requires forall k <- keys :: f(k) == g(k)
    ensures Total(f, keys) == Total(g, keys)
    decreases keys
  {
    if keys == {} {
    } else {
      var k :| k in keys;
      TotalWithout(f, keys, k);
      TotalWithout(g, keys, k);
      SameTotal(f, g, keys - {k});
    }
  }

  method ScoreSection(section: Section, weights: map<string, int>) returns (score: int)
    ensures score == Score(section, weights)
  {
    score := 0;
    var s := EnsureTokenSet(section);
    var left := weights.Keys;
    ghost var weight := WeightIn(weights);
    ghost var all := weights.Keys * s.tokenSet.value;
    assert all == left * s.tokenSet.value;
    while left != {}
      invariant left <= weights.Keys
      invariant score + Total(weight, left * s.tokenSet.value) == Total(weight, all)
      decreases left
    {
      var token :| token in left;
      ghost var hit := left * s.tokenSet.value;
      if token in s.tokenSet.value {
        TotalWithout(weight, hit, token);
        assert hit - {token} == (left - {token}) * s.tokenSet.value;
        score := score + weights[token];
      } else {
        assert hit == (left - {token}) * s.tokenSet.value;
      }
      left := left - {token};
    }
    assert left * s.tokenSet.value == {};
  }

  /** The stored index scores as direct tokenising does, whether the set was built or is rebuilt from the file. */
  lemma StoredTokensAgree(abc: Alphabet, s: Section, weights: map<string, int>)
    requires Indexed(abc, s)
    ensures Score(s, weights) == TextScore(abc, s.title + "\n" + s.content, weights)
    ensures Indexed(abc, Saved(s)) && Score(Saved(s), weights) == Score(s, weights)
  {
  }

  /** From text to score: a section built from its text scores as tokenising the text does, at once and after having
      been saved and loaded. */
  method ScoreText(abc: Alphabet, id: string, title: string, body: string, path: string, weights: map<string, int>,
                   sort: seq<string> -> seq<string>) returns (built: int, loaded: int)
    requires SortsStrings(sort)
    ensures built == loaded == TextScore(abc, title + "\n" + body, weights)
  {
    var s := NewSection(abc, id, title, body, path, sort);
    built := ScoreSection(s, weights);
    loaded := ScoreSection(Saved(s), weights);
    StoredTokensAgree(abc, s, weights);
  }

  /** Saving loses nothing: what is stored is determined by the text alone. */
  lemma TokensAreCanonical(abc: Alphabet, s: Section, r: Section)
    requires Indexed(abc, s) && Indexed(abc, r)
    requires s.title + "\n" + s.content == r.title + "\n" + r.content
    ensures s.tokens == r.tokens
  {
    IncreasingIsUnique(s.tokens, r.tokens);
  }

  // ------------------------------------------------------------------ search

  datatype Result = Result(section: Section, score: int)

  predicate RanksBefore(a: Result, b: Result) {
    if a.score == b.score then Before(a.section.title, b.section.title) else a.score > b.score
  }

  lemma RankingIsWeakOrder()
    ensures StrictWeak(RanksBefore)
  {
    forall a: Result, b: Result | RanksBefore(a, b) ensures !RanksBefore(b, a) {
      BeforeAsymmetric(a.section.title, b.section.title);
    }
    forall a: Result, b: Result, c: Result | !RanksBefore(b, a) && !RanksBefore(c, b) ensures !RanksBefore(c, a) {
      if a.score == b.score == c.score {
        BeforeTransitive(a.section.title, b.section.title, c.section.title);
      }
    }
  }

  ghost function Scored(sections: seq<Section>, weights: map<string, int>): (rs: seq<Result>)
    ensures |rs| == |sections|
  {
    seq(|sections|, i requires 0 <= i < |sections| => Result(Ensured(sections[i]), Score(sections[i], weights)))
  }

  ghost function Found(sections: seq<Section>, weights: map<string, int>, limit: int): seq<Result> {
    if limit <= 0 then []
    else
      var all := StableSort(RanksBefore, Scored(sections, weights));
      if |all| > limit then all[..limit] else all
  }

  /** Each section is scored on a copy, so the index itself does not change. */
  method Search(sections: seq<Section>, weights: map<string, int>, limit: int,
                sort: seq<Result> -> seq<Result>) returns (results: seq<Result>)
    requires forall xs :: IsStableSort(RanksBefore, xs, sort(xs))
    ensures results == Found(sections, weights, limit)
  {
    if |sections| == 0 || limit <= 0 {
      return [];
    }
    results := [];
    for i := 0 to |sections|
      invariant results == Scored(sections[..i], weights)
    {
      var sec := EnsureTokenSet(sections[i]);
      var score := ScoreSection(sec, weights);
      results := results + [Result(sec, score)];
    }
    assert sections[..|sections|] == sections;
    RankingIsWeakOrder();
    StableSortIsUnique(RanksBefore, results, sort(results));
    results := sort(results);
    if |results| > limit {
      results := results[..limit];
    }
  }

  /** A higher score, or the same and a title that is not later. */
  predicate NotAfter(a: Result, b: Result) {
    a.score > b.score || (a.score == b.score && !Before(b.section.title, a.section.title))
  }

  /** What is found in nothing, or when nothing is asked for, is nothing. */
  lemma FoundNothing(sections: seq<Section>, weights: map<string, int>, limit: int)
    ensures limit <= 0 || sections == [] ==> Found(sections, weights, limit) == []
  {
    if sections == [] {
      assert Scored(sections, weights) == [];
    }
  }

  /** A section with its set built, from its tokens unless it was there already. */
  ghost predicate IsBuilt(s: Section, built: Section) {
    && built.tokenSet.Some?
    && built.id == s.id && built.title == s.title && built.content == s.content && built.path == s.path
    && built.tokens == s.tokens
    && (s.tokenSet.Some? ==> built.tokenSet == s.tokenSet)
    && (s.tokenSet.None? ==> forall t :: t in built.tokenSet.value <==> t in s.tokens)
  }

  lemma ScoredIsBuilt(sections: seq<Section>, weights: map<string, int>, i: nat)
    requires i < |sections|
    ensures IsBuilt(sections[i], Scored(sections, weights)[i].section)
  {
  }

  /** Whatever is found is a section of the index with its set built. */
  lemma FoundIsBuilt(sections: seq<Section>, weights: map<string, int>, limit: int, r: Result)
    requires r in Found(sections, weights, limit)
    ensures exists i | 0 <= i < |sections| :: IsBuilt(sections[i], r.section)
  {
    var scored := Scored(sections, weights);
    RankingIsWeakOrder();
    assert r in StableSort(RanksBefore, scored);
    SortMembers(RanksBefore, scored, r);
    var i: nat :| i < |scored| && scored[i] == r;
    ScoredIsBuilt(sections, weights, i);
  }

  /** What is found is the beginning of everything in order. */
  lemma FoundInOrder(sections: seq<Section>, weights: map<string, int>, limit: nat) returns (all: seq<Result>)
    requires limit > 0
    ensures |all| == |sections| && Found(sections, weights, limit) == if |all| > limit then all[..limit] else all
    ensures forall i, j | 0 <= i < j < |all| :: NotAfter(all[i], all[j])
    ensures forall r :: r in all <==> r in Scored(sections, weights)
  {
    var scored := Scored(sections, weights);
    all := StableSort(RanksBefore, scored);
    RankingIsWeakOrder();
    StableSortIsStable(RanksBefore, scored);
    SortLength(RanksBefore, scored);
    forall r ensures r in all <==> r in scored { SortMembers(RanksBefore, scored, r); }
  }

  lemma ScoredDirectly(abc: Alphabet, sections: seq<Section>, weights: map<string, int>, r: Result)
    requires forall s <- sections :: Indexed(abc, s)
    requires r in Scored(sections, weights)
    ensures r.score == TextScore(abc, r.section.title + "\n" + r.section.content, weights)
  {
    var i :| 0 <= i < |sections| && Scored(sections, weights)[i] == r;
    assert sections[i] in sections;
    StoredTokensAgree(abc, sections[i], weights);
  }

  /** The `limit` best: in order of score and then title, each scored by direct tokenising, and nothing left out
      ranks before anything found. */
  lemma SearchRanking(abc: Alphabet, sections: seq<Section>, weights: map<string, int>, limit: nat)
    requires forall s <- sections :: Indexed(abc, s)
    requires limit > 0
    ensures var found := Found(sections, weights, limit);
            && |found| == (if |sections| > limit then limit else |sections|)
            && (forall i, j | 0 <= i < j < |found| :: NotAfter(found[i], found[j]))
            && (forall r <- found :: r.score == TextScore(abc, r.section.title + "\n" + r.section.content, weights))
            && (forall r <- Scored(sections, weights) | r !in found :: forall f <- found :: NotAfter(f, r))
  {
    var found := Found(sections, weights, limit);
    var all := FoundInOrder(sections, weights, limit);
    assert forall k | 0 <= k < |found| :: found[k] == all[k];
    forall r | r in found ensures r.score == TextScore(abc, r.section.title + "\n" + r.section.content, weights) {
      assert r in all;
      ScoredDirectly(abc, sections, weights, r);
    }
    forall r, f | r in Scored(sections, weights) && r !in found && f in found ensures NotAfter(f, r) {
      assert r in all;
      var j :| 0 <= j < |all| && all[j] == r;
      var i :| 0 <= i < |found| && found[i] == f;
    }
  }
}
