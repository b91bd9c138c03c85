/** Word matching of the intent classifier: internal/agent/intent.go. */
module WordMatch {
  import opened Text

  /** unicode.IsLetter, IsDigit or '_'; and unicode.ToLower. */
  datatype Letters = Letters(word: char -> bool, lower: char -> char)

  /** What the model takes from the Unicode tables: no space is a word character, lower case is final, and a blank has
      no case. */
  ghost predicate Sane(l: Letters) {
    && (forall c | IsSpace(c) :: !l.word(c))
    && (forall c :: l.lower(l.lower(c)) == l.lower(c))
    && l.lower(' ') == ' '
  }

  // ------------------------------------------------------------------ words

  predicate EndsInWord(l: Letters, s: string) { s != "" && l.word(s[|s| - 1]) }

  /** The maximal runs of word characters, in order. */
  function Words(l: Letters, s: string): (ws: seq<string>)
    ensures EndsInWord(l, s) ==> ws != []
  {
    if s == "" then []
    else
      var init, c := s[..|s| - 1], s[|s| - 1];
      var ws := Words(l, init);
      if !l.word(c) then ws else if EndsInWord(l, init) then Extend(ws, c) else ws + [[c]]
  }

  function Extend(ws: seq<string>, c: char): seq<string>
    requires ws != []
  {
    ws[..|ws| - 1] + [ws[|ws| - 1] + [c]]
  }

  predicate IsWord(l: Letters, w: string) { w != "" && forall c <- w :: l.word(c) }

  predicate AreWords(l: Letters, ws: seq<string>) { forall w <- ws :: IsWord(l, w) }

  lemma ExtendIsWord(l: Letters, ws: seq<string>, c: char)
    requires AreWords(l, ws) && ws != [] && l.word(c)
    ensures AreWords(l, Extend(ws, c))
  {
    var last := ws[|ws| - 1];
    assert last in ws && forall w <- ws[..|ws| - 1] :: w in ws;
    assert IsWord(l, last + [c]);
  }

  lemma {:induction false} WordsAreWords(l: Letters, s: string)
    ensures AreWords(l, Words(l, s))
  {
    if s == "" {
    } else {
      var init, c := s[..|s| - 1], s[|s| - 1];
      WordsAreWords(l, init);
      if l.word(c) {
        assert IsWord(l, [c]);
        if EndsInWord(l, init) {
          ExtendIsWord(l, Words(l, init), c);
        }
      }
    }
  }

  /** How many runs of word characters begin in a text. */
  function Starts(l: Letters, s: string): nat {
    if s == "" then 0
    else
      var n := |s| - 1;
      Starts(l, s[..n]) + if l.word(s[n]) && (n == 0 || !l.word(s[n - 1])) then 1 else 0
  }

  predicate WholeRun(l: Letters, s: string, i: int, j: int) {
    && 0 <= i < j <= |s|
    && (forall k | i <= k < j :: l.word(s[k]))
    && (i > 0 ==> !l.word(s[i - 1])) && (j < |s| ==> !l.word(s[j]))
  }

  lemma {:induction false} WordsCount(l: Letters, s: string)
    ensures |Words(l, s)| == Starts(l, s)
  {
    if s == "" {
    } else {
      WordsCount(l, s[..|s| - 1]);
    }
  }

  /** A word that is not being extended stays. */
  lemma WordStays(l: Letters, init: string, c: char, p: nat)
    requires p < |Words(l, init)| && (l.word(c) && EndsInWord(l, init) ==> p + 1 < |Words(l, init)|)
    ensures p < |WordsThen(l, init, c)| && WordsThen(l, init, c)[p] == Words(l, init)[p]
  {
  }

  predicate WordAt(ws: seq<string>, p: nat, w: string) { p < |ws| && ws[p] == w }

  /** Each whole run of word characters is a word, behind those of the runs before it; by WordsCount there are no
      others. */
  lemma {:induction false} WordsAreRuns(l: Letters, s: string, i: int, j: int)
    requires WholeRun(l, s, i, j)
    ensures WordAt(Words(l, s), Starts(l, s[..i]), s[i..j])
    decreases |s|, 0
  {
    var n := |s| - 1;
    WordsSnoc(l, s[..n], s[n]);
    assert s == s[..n] + [s[n]];
    RunStep(l, s, s[..n], s[n], i, j);
  }

  lemma RunStep(l: Letters, s: string, init: string, c: char, i: int, j: int)
    requires s == init + [c] && WholeRun(l, s, i, j)
    ensures WordAt(WordsThen(l, init, c), Starts(l, s[..i]), s[i..j])
    decreases |init|, 2
  {
    assert s[..i] == init[..i] && forall k | 0 <= k < |init| :: s[k] == init[k];
    if j <= |init| {
      assert WholeRun(l, init, i, j);
      EarlierRun(l, init, c, i, j);
      assert s[i..j] == init[i..j];
    } else if i == |init| {
      assert s[|init|] == c && (i > 0 ==> s[i - 1] == init[i - 1]);
      NewRun(l, init, c);
      assert s[i..j] == [c] && init[..i] == init;
    } else {
      assert WholeRun(l, init, i, |init|) && s[|init|] == c;
      ExtendedRun(l, init, c, i);
      assert s[i..j] == init[i..] + [c];
    }
  }

  lemma NewRun(l: Letters, init: string, c: char)
    requires l.word(c) && !EndsInWord(l, init)
    ensures WordAt(WordsThen(l, init, c), Starts(l, init), [c])
  {
    WordsCount(l, init);
  }

  lemma EarlierRun(l: Letters, init: string, c: char, i: int, j: int)
    requires WholeRun(l, init, i, j) && (j == |init| ==> !l.word(c))
    ensures WordAt(WordsThen(l, init, c), Starts(l, init[..i]), init[i..j])
    decreases |init|, 1
  {
    WordsAreRuns(l, init, i, j);
    LaterWord(l, init, i, j);
    WordsCount(l, init);
    WordStays(l, init, c, Starts(l, init[..i]));
  }

  lemma ExtendedRun(l: Letters, init: string, c: char, i: int)
    requires WholeRun(l, init, i, |init|) && l.word(c)
    ensures WordAt(WordsThen(l, init, c), Starts(l, init[..i]), init[i..] + [c])
    decreases |init|, 1
  {
    WordsAreRuns(l, init, i, |init|);
    LastRun(l, init, i);
    WordsCount(l, init);
    assert init[i..|init|] == init[i..];
  }

  /** The run at the end of a text is its last word. */
  lemma {:induction false} LastRun(l: Letters, s: string, i: int)
    requires WholeRun(l, s, i, |s|)
    ensures Starts(l, s) == Starts(l, s[..i]) + 1
  {
    var n := |s| - 1;
    if i == n {
    } else {
      assert WholeRun(l, s[..n], i, n);
      LastRun(l, s[..n], i);
      assert s[..n][..i] == s[..i];
    }
  }

  /** A run that ends before the last character of a text that goes on is not the word being extended. */
  lemma {:induction false} LaterWord(l: Letters, s: string, i: int, j: int)
    requires WholeRun(l, s, i, j)
    ensures EndsInWord(l, s) && j < |s| ==> Starts(l, s[..i]) + 1 < Starts(l, s)
    ensures Starts(l, s[..i]) < Starts(l, s)
  {
    var n := |s| - 1;
    if j == |s| {
      LastRun(l, s, i);
    } else {
      LaterWord(l, s[..n], i, j);
      assert s[..n][..i] == s[..i];
    }
  }

  /** strings.Join with a single space. */
  function Join(ws: seq<string>): string {
    if ws == [] then ""
    else
      var n := |ws| - 1;
      if n == 0 then ws[0] else Join(ws[..n]) + " " + ws[n]
  }

  lemma JoinExtend(ws: seq<string>, c: char)
    requires ws != []
    ensures Join(Extend(ws, c)) == Join(ws) + [c]
  {
    var n := |ws| - 1;
    assert Extend(ws, c)[..n] == ws[..n];
    if n > 0 {
      Regroup(Join(ws[..n]) + " ", ws[n], [c]);
    }
  }

  lemma JoinSnoc(ws: seq<string>, w: string)
    ensures Join(ws + [w]) == if ws == [] then w else Join(ws) + " " + w
  {
    assert (ws + [w])[..|ws|] == ws;
  }

  lemma {:induction false} JoinEnds(l: Letters, ws: seq<string>)
    requires AreWords(l, ws) && ws != []
    ensures var j := Join(ws); j != "" && l.word(j[0]) && l.word(j[|j| - 1])
  {
    var n := |ws| - 1;
    assert ws[n] in ws;
    if n == 0 {
    } else {
      JoinEnds(l, ws[..n]);
    }
  }

  lemma TrimJoined(l: Letters, ws: seq<string>)
    requires Sane(l) && AreWords(l, ws)
    ensures TrimSpace(Join(ws)) == Join(ws)
    ensures ws != [] ==> TrimSpace(Join(ws) + " ") == Join(ws)
  {
    if ws != [] {
      JoinEnds(l, ws);
      var j := Join(ws) + " ";
      assert TrimLeft(j) == j && j[..|j| - 1] == Join(ws);
    }
  }

  /** A blank is pending after the words of `s`. */
  function Pending(l: Letters, s: string): string {
    if EndsInWord(l, s) || Words(l, s) == [] then "" else " "
  }

  /** What has been written after `s`. */
  function Written(l: Letters, s: string): string { Join(Words(l, s)) + Pending(l, s) }

  function WrittenNext(l: Letters, s: string, i: nat, b: string): string
    requires i < |s|
  {
    if l.word(s[i]) then b + [s[i]] else if EndsInWord(l, s[..i]) then b + " " else b
  }

  lemma NextChar(l: Letters, s: string, i: nat)
    requires i < |s|
    ensures Written(l, s[..i + 1]) == WrittenNext(l, s, i, Written(l, s[..i]))
    ensures EndsInWord(l, s[..i + 1]) == l.word(s[i])
  {
    var done, more := s[..i], s[..i + 1];
    assert more[..i] == done;
    var ws := Words(l, done);
    if l.word(s[i]) {
      if EndsInWord(l, done) {
        JoinExtend(ws, s[i]);
      } else {
        JoinSnoc(ws, [s[i]]);
      }
    }
  }

  lemma TrimWritten(l: Letters, s: string)
    requires Sane(l)
    ensures TrimSpace(Written(l, s)) == Join(Words(l, s))
  {
    WordsAreWords(l, s);
    var ws := Words(l, s);
    TrimJoined(l, ws);
    assert Written(l, s) == Join(ws) || (ws != [] && Written(l, s) == Join(ws) + " ");
  }

  function Normalized(l: Letters, text: string): string { Join(Words(l, ToLower(l.lower, text))) }

  /** `written` is Written, kept as a parameter so that the loop does not unfold it. */
  method WriteWords(l: Letters, s: string, ghost written: string -> string) returns (b: string)
    requires written("") == ""
    requires forall i | 0 <= i < |s| :: written(s[..i + 1]) == WrittenNext(l, s, i, written(s[..i]))
    ensures b == written(s)
  {
    b := "";
    var lastSpace := true;
    assert s[..0] == "";
    for i := 0 to |s|
      invariant lastSpace == !EndsInWord(l, s[..i])
      invariant b == written(s[..i])
    {
      assert s[..i + 1][i] == s[i];
      if l.word(s[i]) {
        b := b + [s[i]];
        lastSpace := false;
        continue;
      }
      if !lastSpace {
        b := b + " ";
        lastSpace := true;
      }
    }
    assert s[..|s|] == s;
  }

  method NormalizeWordMatch(l: Letters, text: string) returns (normalized: string)
    requires Sane(l)
    ensures normalized == Normalized(l, text)
  {
    var s := ToLower(l.lower, text);
    forall i | 0 <= i < |s| ensures Written(l, s[..i + 1]) == WrittenNext(l, s, i, Written(l, s[..i])) {
      NextChar(l, s, i);
    }
    var b := WriteWords(l, s, (t: string) => Written(l, t));
    TrimWritten(l, s);
    normalized := TrimSpace(b);
  }

  // ------------------------------------------------------------------ normalising twice

  function WordsThen(l: Letters, s: string, c: char): seq<string> {
    if !l.word(c) then Words(l, s) else if EndsInWord(l, s) then Extend(Words(l, s), c) else Words(l, s) + [[c]]
  }

  lemma WordsSnoc(l: Letters, s: string, c: char)
    ensures Words(l, s + [c]) == WordsThen(l, s, c)
  {
    assert (s + [c])[..|s|] == s;
  }

  lemma ExtendedWord(l: Letters, s: string, c: char, ws: seq<string>, w: string)
    requires EndsInWord(l, s) && l.word(c) && Words(l, s) == ws + [w]
    ensures Words(l, s + [c]) == ws + [w + [c]]
  {
    WordsSnoc(l, s, c);
    ExtendLast(ws, w, c);
  }

  lemma {:induction false} WordsOfWord(l: Letters, s: string, w: string)
    requires !EndsInWord(l, s) && IsWord(l, w)
    ensures Words(l, s + w) == Words(l, s) + [w]
  {
    var n := |w| - 1;
    var init, c := w[..n], w[n];
    assert w == init + [c];
    assert forall x <- init :: x in w;
    assert c in w;
    if n == 0 {
      WordsSnoc(l, s, c);
    } else {
      WordsOfWord(l, s, init);
      assert init[n - 1] in init;
      ExtendedWord(l, s + init, c, Words(l, s), init);
      Regroup(s, init, [c]);
    }
  }

  lemma ExtendLast(ws: seq<string>, w: string, c: char)
    ensures Extend(ws + [w], c) == ws + [w + [c]]
  {
  }

  lemma {:induction false} WordsOfJoin(l: Letters, ws: seq<string>)
    requires Sane(l) && AreWords(l, ws)
    ensures Words(l, Join(ws)) == ws
  {
    if ws == [] {
    } else {
      var n := |ws| - 1;
      assert ws[n] in ws && ws == ws[..n] + [ws[n]];
      if n == 0 {
        WordsOfWord(l, "", ws[0]);
        assert "" + ws[0] == ws[0];
      } else {
        WordsOfJoin(l, ws[..n]);
        var s := Join(ws[..n]) + " ";
        assert s[..|s| - 1] == Join(ws[..n]);
        WordsOfWord(l, s, ws[n]);
      }
    }
  }

  predicate IsLower(l: Letters, s: string) { forall c <- s :: l.lower(c) == c }

  lemma LowerIsLower(l: Letters, s: string)
    requires Sane(l)
    ensures IsLower(l, ToLower(l.lower, s))
    ensures IsLower(l, s) ==> ToLower(l.lower, s) == s
  {
  }

  lemma {:induction false} WordsStayLower(l: Letters, s: string)
    requires Sane(l) && IsLower(l, s)
    ensures IsLower(l, Join(Words(l, s)) + Pending(l, s))
  {
    if s == "" {
    } else {
      var i := |s| - 1;
      WordsStayLower(l, s[..i]);
      assert s[..i + 1] == s;
      assert s[i] in s;
      NextChar(l, s, i);
    }
  }

  /** Normalising is idempotent. */
  lemma NormalizeTwice(l: Letters, text: string)
    requires Sane(l)
    ensures Normalized(l, Normalized(l, text)) == Normalized(l, text)
  {
    var s := ToLower(l.lower, text);
    var ws := Words(l, s);
    WordsAreWords(l, s);
    LowerIsLower(l, text);
    WordsStayLower(l, s);
    assert forall c <- Join(ws) :: c in Join(ws) + Pending(l, s);
    LowerIsLower(l, Join(ws));
    WordsOfJoin(l, ws);
  }

  // ------------------------------------------------------------------ the padded substring test

  /** The words, each followed by a blank. */
  function Body(ws: seq<string>): string {
    if ws == [] then "" else ws[0] + " " + Body(ws[1..])
  }

  predicate SublistAt(xs: seq<string>, ys: seq<string>, i: nat) { i <= |xs| && ys <= xs[i..] }

  /** `ys` is a contiguous sublist of `xs`. */
  predicate Sublist(xs: seq<string>, ys: seq<string>) { exists i | 0 <= i <= |xs| :: SublistAt(xs, ys, i) }

  predicate NoBlanks(ws: seq<string>) { forall w <- ws :: w != "" && ' ' !in w }

  lemma NoBlanksAfter(ws: seq<string>, i: nat)
    requires NoBlanks(ws) && i <= |ws|
    ensures NoBlanks(ws[i..])
  {
    assert forall w <- ws[i..] :: w in ws;
  }

  lemma {:induction false} BodyConcat(xs: seq<string>, ys: seq<string>)
    ensures Body(xs + ys) == Body(xs) + Body(ys)
  {
    if xs == [] {
      assert xs + ys == ys;
    } else {
      assert (xs + ys)[1..] == xs[1..] + ys;
      BodyConcat(xs[1..], ys);
      Regroup(xs[0] + " ", Body(xs[1..]), Body(ys));
    }
  }

  lemma BodySnoc(ws: seq<string>, w: string)
    ensures Body(ws + [w]) == Body(ws) + (w + " ")
  {
    BodyConcat(ws, [w]);
    assert Body([w]) == w + " " + Body([]) == w + " ";
  }

  lemma {:induction false} JoinIsBody(ws: seq<string>)
    requires ws != []
    ensures Join(ws) + " " == Body(ws)
  {
    var n := |ws| - 1;
    if n == 0 {
    } else {
      JoinIsBody(ws[..n]);
      assert ws[..n] + [ws[n]] == ws;
      BodySnoc(ws[..n], ws[n]);
      Regroup(Body(ws[..n]), ws[n], " ");
    }
  }

  /** Blank-free words before a blank are determined by the text. */
  lemma SameFirstWord(v: string, w: string, x: string, y: string)
    requires ' ' !in v && ' ' !in w && v + " " + x <= w + " " + y
    ensures v == w && x <= y
  {
    var s, t := v + " " + x, w + " " + y;
    assert s[|v|] == ' ' && t[|v|] == ' ';
    assert t[|w|] == ' ';
    assert forall k | 0 <= k < |v| :: s[k] == v[k] && s[k] in v;
    assert forall k | 0 <= k < |w| :: t[k] == w[k] && t[k] in w;
    assert |v| == |w|;
    assert v == s[..|v|] == t[..|w|] == w;
    assert x == s[|v| + 1..] && y == t[|w| + 1..];
  }

  lemma {:induction false} PrefixOfBody(xs: seq<string>, ys: seq<string>)
    requires NoBlanks(xs) && NoBlanks(ys) && Body(ys) <= Body(xs)
    ensures ys <= xs
  {
    if ys == [] {
    } else {
      assert ys[0] in ys;
      assert |Body(ys)| > 0;
      assert xs[0] in xs;
      SameFirstWord(ys[0], xs[0], Body(ys[1..]), Body(xs[1..]));
      NoBlanksAfter(xs, 1);
      NoBlanksAfter(ys, 1);
      PrefixOfBody(xs[1..], ys[1..]);
      assert xs == [xs[0]] + xs[1..] && ys == [ys[0]] + ys[1..];
    }
  }

  /** A blank in the padded text is the one before some word, or the last. */
  lemma {:induction false} BlankStartsWord(xs: seq<string>, k: nat) returns (i: nat)
    requires NoBlanks(xs) && k < |" " + Body(xs)| && (" " + Body(xs))[k] == ' '
    ensures i <= |xs| && (" " + Body(xs))[k..] == " " + Body(xs[i..])
  {
    var t := " " + Body(xs);
    if k == 0 {
      i := 0;
      assert xs[0..] == xs && t[0..] == t;
    } else {
      assert xs != [];
      var w, rest := xs[0], " " + Body(xs[1..]);
      assert w in xs;
      assert t == " " + w + rest;
      assert forall j | 1 <= j <= |w| :: t[j] == w[j - 1] && t[j] in w;
      var skip := |w| + 1;
      assert k >= skip;
      assert t[k..] == rest[k - skip..] && t[k] == rest[k - skip];
      NoBlanksAfter(xs, 1);
      var i' := BlankStartsWord(xs[1..], k - skip);
      i := i' + 1;
      assert xs[1..][i'..] == xs[i..];
    }
  }

  lemma OccursInPadded(xs: seq<string>, ys: seq<string>, k: nat) returns (i: nat)
    requires NoBlanks(xs) && NoBlanks(ys) && OccursAt(" " + Body(xs), " " + Body(ys), k)
    ensures SublistAt(xs, ys, i)
  {
    var t := " " + Body(xs);
    assert t[k..][0] == ' ';
    i := BlankStartsWord(xs, k);
    assert Body(ys) == (" " + Body(ys))[1..] && Body(xs[i..]) == (" " + Body(xs[i..]))[1..];
    NoBlanksAfter(xs, i);
    PrefixOfBody(xs[i..], ys);
  }

  lemma SublistOccurs(xs: seq<string>, ys: seq<string>, i: nat)
    requires SublistAt(xs, ys, i)
    ensures OccursAt(" " + Body(xs), " " + Body(ys), |Body(xs[..i])|)
  {
    var pre, post := xs[..i], xs[i..][|ys|..];
    assert xs[i..] == ys + post && xs == pre + xs[i..];
    BodyConcat(pre, xs[i..]);
    BodyConcat(ys, post);
    BlankBefore(pre);
    OccursBetween(Body(pre), Body(ys), Body(post));
  }

  lemma OccursBetween(a: string, b: string, c: string)
    requires (" " + a)[|a|] == ' '
    ensures OccursAt(" " + (a + (b + c)), " " + b, |a|)
  {
    var t := " " + (a + (b + c));
    assert t[|a|..] == " " + b + c;
  }

  lemma {:induction false} BlankBefore(ws: seq<string>)
    ensures (" " + Body(ws))[|Body(ws)|] == ' '
  {
    if ws == [] {
    } else {
      BlankBefore(ws[1..]);
      var t, rest := " " + Body(ws), " " + Body(ws[1..]);
      assert t == " " + ws[0] + rest;
    }
  }

  function Padded(ws: seq<string>): string { " " + Join(ws) + " " }

  lemma WordsHaveNoBlanks(l: Letters, ws: seq<string>)
    requires Sane(l) && AreWords(l, ws)
    ensures NoBlanks(ws)
  {
    assert IsSpace(' ');
  }

  lemma PaddedIsBody(ws: seq<string>)
    requires ws != []
    ensures Padded(ws) == " " + Body(ws)
  {
    JoinIsBody(ws);
    Regroup(" ", Join(ws), " ");
  }

  lemma BodyTest(xs: seq<string>, ys: seq<string>)
    requires NoBlanks(xs) && NoBlanks(ys)
    ensures Contains(" " + Body(xs), " " + Body(ys)) <==> Sublist(xs, ys)
  {
    var t, needle := " " + Body(xs), " " + Body(ys);
    if k :| 0 <= k <= |t| && OccursAt(t, needle, k) {
      var i := OccursInPadded(xs, ys, k);
    }
    if i :| 0 <= i <= |xs| && SublistAt(xs, ys, i) {
      SublistOccurs(xs, ys, i);
      BodyConcat(xs[..i], xs[i..]);
      assert xs[..i] + xs[i..] == xs;
    }
  }

  /** The padded substring test refines the word-list test. */
  lemma PaddedTest(l: Letters, xs: seq<string>, ys: seq<string>)
    requires Sane(l) && AreWords(l, xs) && AreWords(l, ys) && ys != []
    ensures Contains(Padded(xs), Padded(ys)) <==> Sublist(xs, ys)
  {
    WordsHaveNoBlanks(l, xs);
    WordsHaveNoBlanks(l, ys);
    PaddedIsBody(ys);
    if xs == [] {
      assert ys[0] in ys;
      assert |Padded(ys)| > 2 == |Padded(xs)|;
    } else {
      PaddedIsBody(xs);
      BodyTest(xs, ys);
    }
  }

  // ------------------------------------------------------------------ matching needles

  /** Some character is neither a word character nor a space. */
  predicate HasSymbol(l: Letters, needle: string) { exists c <- needle :: !l.word(c) && !IsSpace(c) }

  method IsLiteralNeedle(l: Letters, needle: string) returns (literal: bool)
    ensures literal == HasSymbol(l, needle)
  {
    for i := 0 to |needle|
      invariant !HasSymbol(l, needle[..i])
    {
      if l.word(needle[i]) || IsSpace(needle[i]) {
        assert needle[..i + 1] == needle[..i] + [needle[i]];
        continue;
      }
      assert needle[i] in needle;
      return true;
    }
    assert needle[..|needle|] == needle;
    return false;
  }

  function Needle(l: Letters, raw: string): string { ToLower(l.lower, TrimSpace(raw)) }

  /** A needle with a symbol is looked for as it is; any other as a run of whole words. */
  ghost predicate Hits(l: Letters, text: string, raw: string) {
    var needle := Needle(l, raw);
    if HasSymbol(l, needle) then Contains(text, needle)
    else
      var ys := Words(l, ToLower(l.lower, needle));
      ys != [] && Sublist(Words(l, ToLower(l.lower, text)), ys)
  }

  /** The text has the needle's characters, lower-cased, from i on. */
  predicate LowerAt(l: Letters, text: string, core: string, i: nat) {
    i + |core| <= |text| && forall k | 0 <= k < |core| :: text[i + k] == l.lower(core[k])
  }

  /** The words ys are those from the p-th on. */
  predicate WordsFrom(xs: seq<string>, ys: seq<string>, p: nat) {
    p + |ys| <= |xs| && forall k | 0 <= k < |ys| :: xs[p + k] == ys[k]
  }

  /** Outer space of a needle does not matter, nor does its case. If some character of it is neither a word character
      nor a space, it has to occur in the text as it is; otherwise its words, of which there is at least one, have to
      follow each other among the text's. */
  lemma HitsIff(l: Letters, text: string, before: string, core: string, after: string,
                xs: seq<string>, ys: seq<string>)
    requires AllSpace(before) && AllSpace(after) && Trim(core)
    requires xs == Words(l, ToLower(l.lower, text)) && ys == Words(l, ToLower(l.lower, ToLower(l.lower, core)))
    ensures Hits(l, text, before + core + after) <==>
            if exists k | 0 <= k < |core| :: !l.word(l.lower(core[k])) && !IsSpace(l.lower(core[k]))
            then exists i: nat :: LowerAt(l, text, core, i)
            else ys != [] && exists p: nat :: WordsFrom(xs, ys, p)
  {
    TrimSpaceAround(before, core, after);
    SymbolIff(l, core);
    LowerContainedIff(l, text, core);
    SublistIff(xs, ys);
  }

  lemma SymbolIff(l: Letters, core: string)
    ensures HasSymbol(l, ToLower(l.lower, core))
       <==> exists k | 0 <= k < |core| :: !l.word(l.lower(core[k])) && !IsSpace(l.lower(core[k]))
  {
    var needle := ToLower(l.lower, core);
    if HasSymbol(l, needle) {
      var k :| 0 <= k < |needle| && !l.word(needle[k]) && !IsSpace(needle[k]);
      assert needle[k] == l.lower(core[k]);
    }
    if k :| 0 <= k < |core| && !l.word(l.lower(core[k])) && !IsSpace(l.lower(core[k])) {
      assert needle[k] in needle;
    }
  }

  lemma LowerContainedIff(l: Letters, text: string, core: string)
    ensures Contains(text, ToLower(l.lower, core)) <==> exists i: nat :: LowerAt(l, text, core, i)
  {
    var needle := ToLower(l.lower, core);
    if i: nat :| i <= |text| && OccursAt(text, needle, i) {
      assert forall k | 0 <= k < |core| :: text[i + k] == text[i..][k] == needle[k];
      assert LowerAt(l, text, core, i);
    }
    if i: nat :| LowerAt(l, text, core, i) {
      assert needle == text[i..][..|needle|];
      assert OccursAt(text, needle, i);
    }
  }

  lemma SublistIff(xs: seq<string>, ys: seq<string>)
    ensures Sublist(xs, ys) <==> exists p: nat :: WordsFrom(xs, ys, p)
  {
    if p: nat :| p <= |xs| && SublistAt(xs, ys, p) {
      assert forall k | 0 <= k < |ys| :: xs[p + k] == xs[p..][k] == ys[k];
      assert WordsFrom(xs, ys, p);
    }
    if p: nat :| WordsFrom(xs, ys, p) {
      assert ys == xs[p..][..|ys|];
      assert SublistAt(xs, ys, p);
    }
  }

  lemma EmptyNeedle(l: Letters, text: string, raw: string)
    requires Needle(l, raw) == ""
    ensures !Hits(l, text, raw)
  {
    assert ToLower(l.lower, "") == "";
  }

  lemma {:induction false} JoinEmpty(l: Letters, ws: seq<string>)
    requires AreWords(l, ws)
    ensures Join(ws) == "" <==> ws == []
  {
    if ws == [] {
    } else {
      JoinEnds(l, ws);
    }
  }

  method ContainsAnyNormalized(l: Letters, text: string, needles: seq<string>) returns (found: bool)
    requires Sane(l)
    ensures found <==> text != "" && exists n <- needles :: Hits(l, text, n)
  {
    if text == "" {
      return false;
    }
    ghost var xs := Words(l, ToLower(l.lower, text));
    WordsAreWords(l, ToLower(l.lower, text));
    var wordNormalizedText := "";
    for i := 0 to |needles|
      invariant forall j | 0 <= j < i :: !Hits(l, text, needles[j])
      invariant wordNormalizedText == "" || wordNormalizedText == Join(xs)
    {
      var needle := ToLower(l.lower, TrimSpace(needles[i]));
      if needle == "" {
        EmptyNeedle(l, text, needles[i]);
        continue;
      }
      var literal := IsLiteralNeedle(l, needle);
      if literal {
        if Contains(text, needle) {
          assert Hits(l, text, needles[i]);
          return true;
        }
        continue;
      }
      if wordNormalizedText == "" {
        wordNormalizedText := NormalizeWordMatch(l, text);
      }
      var needleWord := NormalizeWordMatch(l, needle);
      ghost var ys := Words(l, ToLower(l.lower, needle));
      WordsAreWords(l, ToLower(l.lower, needle));
      JoinEmpty(l, ys);
      if needleWord == "" {
        continue;
      }
      PaddedTest(l, xs, ys);
      if Contains(" " + wordNormalizedText + " ", " " + needleWord + " ") {
        assert Hits(l, text, needles[i]);
        return true;
      }
    }
    return false;
  }

  // ------------------------------------------------------------------ the best class

  datatype Intent = LiveData | QueryHelp | DashboardLookup | HowToDocs | IncidentSummary

  const TIE_BREAK_ORDER: seq<Intent> := [DashboardLookup, IncidentSummary, QueryHelp, HowToDocs, LiveData]

  /** The first of the highest-scoring classes in the tie-break order, or LiveData when nothing scored. */
  method BestIntent(score: Intent -> nat) returns (best: Intent)
    ensures forall c :: score(c) <= score(best)
    ensures (forall c :: score(c) == 0) ==> best == LiveData
    ensures (exists c :: score(c) > 0) ==>
              exists k | 0 <= k < 5 :: best == TIE_BREAK_ORDER[k]
                && forall j | 0 <= j < k :: score(TIE_BREAK_ORDER[j]) < score(best)
  {
    best := LiveData;
    var bestScore: int := -1;
    for i := 0 to 5
      invariant i == 0 ==> bestScore == -1
      invariant i > 0 ==> exists k | 0 <= k < i :: best == TIE_BREAK_ORDER[k] && bestScore == score(best)
                            && forall j | 0 <= j < k :: score(TIE_BREAK_ORDER[j]) < bestScore
      invariant forall j | 0 <= j < i :: score(TIE_BREAK_ORDER[j]) <= bestScore
    {
      var s := score(TIE_BREAK_ORDER[i]);
      if s > bestScore {
        best := TIE_BREAK_ORDER[i];
        bestScore := s;
      }
    }
    forall c ensures score(c) <= bestScore {
      assert exists j | 0 <= j < 5 :: TIE_BREAK_ORDER[j] == c by {
        assert TIE_BREAK_ORDER[0] == DashboardLookup && TIE_BREAK_ORDER[1] == IncidentSummary
          && TIE_BREAK_ORDER[2] == QueryHelp && TIE_BREAK_ORDER[3] == HowToDocs && TIE_BREAK_ORDER[4] == LiveData;
      }
    }
    if bestScore <= 0 {
      return LiveData;
    }
  }
}
