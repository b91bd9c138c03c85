/** Reference ids of explore queries: internal/agent/explore.go. */
module RefIds {
  import opened Options

  predicate IsLetter(c: char) { 'A' <= c <= 'Z' }

  function Letter(d: nat): char
    requires d < 26
  {
    'A' + d as char
  }

  function Digit(c: char): nat
    requires IsLetter(c)
  {
    c as int - 'A' as int
  }

  /** The numbering A, B, .., Z, AA, AB, .. */
  function RefId(index: nat): string {
    (if index < 26 then "" else RefId(index / 26 - 1)) + [Letter(index % 26)]
  }

  predicate IsId(s: string) { s != "" && forall c <- s :: IsLetter(c) }

  /** The index an id stands for. */
  function IndexOf(s: string): nat
    requires IsId(s)
  {
    var n := |s| - 1;
    if n == 0 then Digit(s[0])
    else
      assert IsId(s[..n]) by { assert forall c <- s[..n] :: c in s; assert s[..n] != ""; }
      (IndexOf(s[..n]) + 1) * 26 + Digit(s[n])
  }

  lemma RefIdStep(i: nat, out: string)
    ensures RefId(i) + out == (if i < 26 then "" else RefId(i / 26 - 1)) + ([Letter(i % 26)] + out)
  {
  }

  method RefIdFromIndex(index: int) returns (out: string)
    ensures out == if index < 0 then "A" else RefId(index)
  {
    if index < 0 {
      return "A";
    }
    out := "";
    var i := index;
    assert RefId(i) + out == RefId(i);
    while i >= 0
      invariant RefId(index) == (if i >= 0 then RefId(i) else "") + out
      decreases i
    {
      RefIdStep(i, out);
      out := [Letter(i % 26)] + out;
      i := i / 26 - 1;
    }
  }

  lemma DigitOfLetter(d: nat)
    requires d < 26
    ensures IsLetter(Letter(d)) && Digit(Letter(d)) == d
  {
  }

  /** Decoding inverts encoding. */
  lemma {:induction false} IndexOfRefId(index: nat)
    ensures IsId(RefId(index)) && IndexOf(RefId(index)) == index
  {
    var s := RefId(index);
    var n := |s| - 1;
    DigitOfLetter(index % 26);
    if index < 26 {
      assert s == [Letter(index)];
    } else {
      IndexOfRefId(index / 26 - 1);
      assert s[..n] == RefId(index / 26 - 1);
    }
  }

  lemma LetterOfDigit(c: char)
    requires IsLetter(c)
    ensures Letter(Digit(c)) == c
  {
  }

  lemma RefIdSnoc(i: nat, d: nat)
    requires d < 26
    ensures RefId((i + 1) * 26 + d) == RefId(i) + [Letter(d)]
  {
    var index := (i + 1) * 26 + d;
    assert index / 26 == i + 1 && index % 26 == d;
  }

  /** Encoding inverts decoding: every string of capital letters is some index's id. */
  lemma {:induction false} RefIdOfIndex(s: string)
    requires IsId(s)
    ensures RefId(IndexOf(s)) == s
  {
    var n := |s| - 1;
    var d := Digit(s[n]);
    assert s == s[..n] + [s[n]];
    if n == 0 {
    } else {
      assert forall c <- s[..n] :: c in s;
      RefIdOfIndex(s[..n]);
      RefIdSnoc(IndexOf(s[..n]), d);
    }
    LetterOfDigit(s[n]);
  }

  lemma RefIdsDiffer(i: nat, j: nat)
    requires i != j
    ensures RefId(i) != RefId(j)
  {
    IndexOfRefId(i);
    IndexOfRefId(j);
  }

  /** Shorter ids come first, and ids of one length in the order of the alphabet. */
  ghost predicate Precedes(s: string, t: string) {
    || |s| < |t|
    || (|s| == |t| && exists k | 0 <= k < |s| :: DiffersAt(s, t, k) && s[k] < t[k])
  }

  /** `k` is the first position at which two ids of one length differ. */
  predicate DiffersAt(s: string, t: string, k: nat)
    requires k < |s| == |t|
  {
    s[k] != t[k] && s[..k] == t[..k]
  }

  lemma InitIsId(s: string)
    requires IsId(s) && |s| > 1
    ensures IsId(s[..|s| - 1])
  {
    assert forall c <- s[..|s| - 1] :: c in s;
  }

  lemma {:induction false} ShorterIsLess(s: string, t: string)
    requires IsId(s) && IsId(t) && |s| < |t|
    ensures IndexOf(s) < IndexOf(t)
  {
    InitIsId(t);
    if |s| == 1 {
      assert s[0] in s;
    } else {
      InitIsId(s);
      assert s[|s| - 1] in s && t[|t| - 1] in t;
      ShorterIsLess(s[..|s| - 1], t[..|t| - 1]);
    }
  }

  lemma {:induction false} FirstDifferenceDecides(s: string, t: string, k: nat)
    requires IsId(s) && IsId(t) && k < |s| == |t| && DiffersAt(s, t, k) && s[k] < t[k]
    ensures IndexOf(s) < IndexOf(t)
  {
    var n := |s| - 1;
    assert s[n] in s && t[n] in t;
    if n == 0 {
    } else {
      InitIsId(s);
      InitIsId(t);
      if k == n {
      } else {
        assert s[..n][..k] == s[..k] && t[..n][..k] == t[..k];
        FirstDifferenceDecides(s[..n], t[..n], k);
      }
    }
  }

  lemma {:induction false} SomeDifference(s: string, t: string) returns (k: nat)
    requires |s| == |t| && s != t
    ensures k < |s| && DiffersAt(s, t, k)
  {
    var n := |s| - 1;
    if s[..n] == t[..n] {
      k := n;
      assert s == s[..n] + [s[n]] && t == t[..n] + [t[n]];
    } else {
      k := SomeDifference(s[..n], t[..n]);
      assert s[..n][..k] == s[..k] && t[..n][..k] == t[..k];
    }
  }

  /** The numbering runs through the ids in their order: A, B, .., Z, AA, AB, .. */
  lemma NumberingIsInOrder(i: nat, j: nat)
    ensures i < j <==> Precedes(RefId(i), RefId(j))
  {
    IndexOfRefId(i);
    IndexOfRefId(j);
    var s, t := RefId(i), RefId(j);
    if |s| < |t| {
      ShorterIsLess(s, t);
    } else if |t| < |s| {
      ShorterIsLess(t, s);
    } else if s != t {
      var k := SomeDifference(s, t);
      if s[k] < t[k] {
        FirstDifferenceDecides(s, t, k);
      } else {
        FirstDifferenceDecides(t, s, k);
        SameBefore(s, t, k);
        forall m | 0 <= m < |s| && DiffersAt(s, t, m) ensures m == k {
          SameBefore(s, t, m);
        }
      }
    }
  }

  lemma SameBefore(s: string, t: string, k: nat)
    requires k <= |s| == |t| && s[..k] == t[..k]
    ensures forall m | 0 <= m < k :: s[m] == t[m]
  {
    forall m | 0 <= m < k ensures s[m] == t[m] {
      assert s[..k][m] == t[..k][m];
    }
  }

  // ------------------------------------------------------------------ default ids of a list of queries

  /** A query as the model may send it: a missing text is blank. */
  datatype Query<D> = Query(refId: string, expr: string, legendFormat: string, editorMode: string,
                            datasource: Option<D>)

  function Filled<D>(q: Query<D>, i: nat, datasource: D): Query<D> {
    Query(if q.refId == "" then RefId(i) else q.refId,
          q.expr,
          if q.legendFormat == "" then "__auto" else q.legendFormat,
          if q.editorMode == "" then "code" else q.editorMode,
          if q.datasource.None? then Some(datasource) else q.datasource)
  }

  method FillDefaults<D>(queries: array<Query<D>>, datasource: D)
    modifies queries
    ensures forall i | 0 <= i < queries.Length :: queries[i] == Filled(old(queries[i]), i, datasource)
    ensures forall i | 0 <= i < queries.Length ::
              var q, was := queries[i], old(queries[i]);
              && q.refId == (if was.refId == "" then RefId(i) else was.refId) && q.expr == was.expr
              && q.legendFormat == (if was.legendFormat == "" then "__auto" else was.legendFormat)
              && q.editorMode == (if was.editorMode == "" then "code" else was.editorMode)
              && q.datasource == (if was.datasource.None? then Some(datasource) else was.datasource)
  {
    for i := 0 to queries.Length
      invariant forall j | 0 <= j < i :: queries[j] == Filled(old(queries[j]), j, datasource)
      invariant forall j | i <= j < queries.Length :: queries[j] == old(queries[j])
    {
      if queries[i].refId == "" {
        var id := RefIdFromIndex(i);
        queries[i] := queries[i].(refId := id);
      }
      if queries[i].editorMode == "" {
        queries[i] := queries[i].(editorMode := "code");
      }
      if queries[i].legendFormat == "" {
        queries[i] := queries[i].(legendFormat := "__auto");
      }
      if queries[i].datasource.None? {
        queries[i] := queries[i].(datasource := Some(datasource));
      }
    }
  }

  function Assigned(ids: seq<string>, i: nat): string
    requires i < |ids|
  {
    if ids[i] == "" then RefId(i) else ids[i]
  }

  ghost predicate AllDistinct(ids: seq<string>) {
    forall i, j | 0 <= i < j < |ids| :: Assigned(ids, i) != Assigned(ids, j)
  }

  /** No two given ids are the same. */
  predicate GivenDistinct(ids: seq<string>) {
    forall i, j | 0 <= i < j < |ids| && ids[i] != "" && ids[j] != "" :: ids[i] != ids[j]
  }

  /** No given id stands for the position of a query that has none. */
  predicate GivenAvoidDefaults(ids: seq<string>) {
    forall j | 0 <= j < |ids| && IsId(ids[j]) :: IndexOf(ids[j]) < |ids| ==> ids[IndexOf(ids[j])] != ""
  }

  /** A list without any given id gets distinct ids; in general the ids are distinct exactly when the given ones are and
      avoid the defaults. */
  lemma AssignedDistinctIff(ids: seq<string>)
    ensures AllDistinct(ids) <==> GivenDistinct(ids) && GivenAvoidDefaults(ids)
    ensures (forall id <- ids :: id == "") ==> AllDistinct(ids)
  {
    if AllDistinct(ids) {
      forall i, j | 0 <= i < j < |ids| && ids[i] != "" && ids[j] != "" ensures ids[i] != ids[j] {
        assert Assigned(ids, i) != Assigned(ids, j);
      }
      forall j | 0 <= j < |ids| && IsId(ids[j]) && IndexOf(ids[j]) < |ids| ensures ids[IndexOf(ids[j])] != "" {
        RefIdOfIndex(ids[j]);
        var i := IndexOf(ids[j]);
        assert Assigned(ids, j) == ids[j] == RefId(i);
        assert i == j || Assigned(ids, i) != Assigned(ids, j);
      }
    }
    if GivenDistinct(ids) && GivenAvoidDefaults(ids) {
      forall i, j | 0 <= i < j < |ids| ensures Assigned(ids, i) != Assigned(ids, j) {
        IndexOfRefId(i);
        IndexOfRefId(j);
        RefIdsDiffer(i, j);
      }
    }
    assert forall i | 0 <= i < |ids| :: ids[i] in ids;
  }

  /** A blank first query takes "A" from a second that was given it. */
  lemma GivenIdCanCollide()
    ensures !AllDistinct(["", "A"])
  {
    var ids := ["", "A"];
    assert RefId(0) == "A";
    assert Assigned(ids, 0) == Assigned(ids, 1);
  }
}
