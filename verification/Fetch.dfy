/** Fetching for an investigation: internal/agent/investigation_router.go. A query is sent to a tool under several
    spellings of its arguments, and once more, corrected, when the tool complains about syntax. */
module Fetch {
  import opened Delimiters
  import opened Options
  import opened Text

  /** An argument value: `any` as it comes out of JSON, and the string maps the router builds. */
  datatype Value =
    | Str(s: string)
    | Num(n: int)
    | Flag(b: bool)
    | StrMap(strs: map<string, string>)
    | Obj(fields: map<string, Value>)

  /** The argument names the router knows, and any other that a tool declares. */
  datatype Key =
    | Query | Expr | PromQL | LogQL
    | DatasourceUid | DatasourceUidSnake | Datasource
    | From | Start | To | End | TimeRange | Range
    | Limit | Step | Instant | Direction
    | Other(name: string)

  type Args = map<Key, Value>

  const QUERY_KEYS: set<Key> := {Query, Expr, PromQL, LogQL}

  datatype Action = Metrics | Logs

  datatype Contract = Contract(properties: set<Key>, required: set<Key>)

  /** What an attempt is built from besides the query: the payload's limit, step, instant and direction as parsed, the
      datasource and its uid as text, and the time range. `marshal` is json.Marshal. */
  datatype Request = Request(
    action: Action,
    limit: Option<int>,
    step: string,
    instant: Option<bool>,
    direction: string,
    datasource: map<string, Value>,
    uid: string,
    timeRange: map<string, string>,
    contract: Contract,
    marshal: Args -> string
  )

  const DEFAULT_LIMIT: int := 500

  /** The text of an object determines its keys. */
  ghost predicate ShowsKeys(marshal: Args -> string) {
    forall a, b {:trigger marshal(a), marshal(b)} :: marshal(a) == marshal(b) ==> a.Keys == b.Keys
  }

  // ------------------------------------------------------------------ building the arguments

  function NonEmpty(s: string): Option<Value> {
    var t := TrimSpace(s);
    if t == "" then None else Some(Str(t))
  }

  function Bound(r: Request, name: string): Option<Value> {
    if name in r.timeRange then NonEmpty(r.timeRange[name]) else None
  }

  /** What the router knows under a name, apart from the query: what is blank, empty or senseless counts as unknown. */
  function Known(r: Request, key: Key): Option<Value> {
    match key
    case DatasourceUid | DatasourceUidSnake => NonEmpty(r.uid)
    case Datasource => if r.datasource == map[] then None else Some(Obj(r.datasource))
    case From | Start => Bound(r, "from")
    case To | End => Bound(r, "to")
    case TimeRange | Range => if r.timeRange == map[] then None else Some(StrMap(r.timeRange))
    case Limit => if r.limit.Some? && r.limit.value > 0 then Some(Num(r.limit.value)) else None
    case Step => NonEmpty(r.step)
    case Instant => if r.instant.Some? then Some(Flag(r.instant.value)) else None
    case Direction => if r.direction in ["forward", "backward"] then Some(Str(r.direction)) else None
    case _ => None
  }

  function Pick(r: Request, keys: set<Key>): Args { map k | k in keys && Known(r, k).Some? :: Known(r, k).value }

  const CONTEXT_KEYS: set<Key> := {DatasourceUid, From, To, TimeRange, Limit, Step, Instant, Direction}

  const RICH_KEYS: set<Key> := CONTEXT_KEYS + {DatasourceUidSnake, Datasource, Start, End, Range}

  function QueryKey(action: Action): Key { if action.Metrics? then PromQL else LogQL }

  /** Everything under every name. */
  function Rich(r: Request, query: string): Args {
    var q := NonEmpty(query);
    var named: Args := if q.None? then map[] else map[Query := q.value, Expr := q.value, QueryKey(r.action) := q.value];
    named + Pick(r, RICH_KEYS)
  }

  /** What a required argument that is missing is filled with. */
  function Filler(r: Request, query: string, key: Key): Option<Value> {
    match key
    case Query | Expr | PromQL | LogQL => Some(Str(query))
    case Limit => Some(Num(DEFAULT_LIMIT))
    case Step | Instant | Direction | Other(_) => None
    case _ => Known(r, key)
  }

  function Completed(r: Request, query: string, args: Args, required: set<Key>): Args {
    args + map k | k in required && k !in args && Filler(r, query, k).Some? :: Filler(r, query, k).value
  }

  /** In whatever order the required names come. */
  method EnsureRequired(r: Request, query: string, args: Args) returns (full: Args)
    ensures full == Completed(r, query, args, r.contract.required)
  {
    full := args;
    var left := r.contract.required;
    while left != {}
      invariant left <= r.contract.required
      invariant full == Completed(r, query, args, r.contract.required - left)
      decreases left
    {
      var key :| key in left;
      var filler := Filler(r, query, key);
      if key !in full && filler.Some? {
        full := full[key := filler.value];
      }
      left := left - {key};
    }
    assert r.contract.required - left == r.contract.required;
  }

  function Primary(r: Request, query: string): Args {
    map[Query := Str(query), Datasource := Obj(r.datasource)] + Pick(r, CONTEXT_KEYS)
  }

  /** The primary arguments with the query under another name. */
  function Renamed(r: Request, query: string, key: Key): Args { (Primary(r, query) - {Query})[key := Str(query)] }

  function Allowed(r: Request, args: Args): Args { map k | k in r.contract.properties && k in args :: args[k] }

  function Filtered(r: Request, query: string): Args {
    Completed(r, query, Allowed(r, Rich(r, query)), r.contract.required)
  }

  function CleanValue(v: Value): Option<Value> {
    match v
    case Str(s) => NonEmpty(s)
    case StrMap(m) => if m == map[] then None else Some(v)
    case Obj(m) => if m == map[] then None else Some(v)
    case _ => Some(v)
  }

  function Clean(args: Args): Args { map k | k in args && CleanValue(args[k]).Some? :: CleanValue(args[k]).value }

  // ------------------------------------------------------------------ removing duplicates

  predicate Seen(marshal: Args -> string, out: seq<Args>, args: Args) { exists a <- out :: marshal(a) == marshal(args) }

  function Deduped(marshal: Args -> string, xs: seq<Args>): seq<Args> {
    if xs == [] then []
    else
      var out, clean := Deduped(marshal, xs[..|xs| - 1]), Clean(xs[|xs| - 1]);
      if clean == map[] || Seen(marshal, out, clean) then out else out + [clean]
  }

  method DedupeArgs(marshal: Args -> string, xs: seq<Args>) returns (out: seq<Args>)
    ensures out == Deduped(marshal, xs)
  {
    var seen: set<string> := {};
    out := [];
    for i := 0 to |xs|
      invariant out == Deduped(marshal, xs[..i])
      invariant seen == set a <- out :: marshal(a)
    {
      assert xs[..i + 1][..i] == xs[..i];
      var clean := Clean(xs[i]);
      if clean == map[] {
        continue;
      }
      var key := marshal(clean);
      if key in seen {
        continue;
      }
      seen := seen + {key};
      out := out + [clean];
    }
    assert xs[..|xs|] == xs;
  }

  /** No two of them have the same text. */
  predicate Distinct(marshal: Args -> string, xs: seq<Args>) {
    forall i, j | 0 <= i < j < |xs| :: marshal(xs[i]) != marshal(xs[j])
  }

  lemma {:induction false} DedupedIsDistinct(marshal: Args -> string, xs: seq<Args>)
    ensures Distinct(marshal, Deduped(marshal, xs))
  {
    if xs == [] {
    } else {
      DedupedIsDistinct(marshal, xs[..|xs| - 1]);
    }
  }

  lemma {:induction false} DedupedAddsNothing(marshal: Args -> string, xs: seq<Args>)
    ensures forall a <- Deduped(marshal, xs) :: exists x <- xs :: a == Clean(x) != map[]
  {
    if xs == [] {
    } else {
      var init, x := xs[..|xs| - 1], xs[|xs| - 1];
      DedupedAddsNothing(marshal, init);
      assert xs == init + [x];
    }
  }

  /** Of every entry that is not empty, one with the same text is left. */
  lemma {:induction false} DedupedLosesNothing(marshal: Args -> string, xs: seq<Args>)
    ensures forall x <- xs :: Clean(x) == map[] || Seen(marshal, Deduped(marshal, xs), Clean(x))
  {
    if xs == [] {
    } else {
      var init, x := xs[..|xs| - 1], xs[|xs| - 1];
      DedupedLosesNothing(marshal, init);
      assert xs == init + [x];
      var out := Deduped(marshal, init);
      assert forall y | Seen(marshal, out, y) :: Seen(marshal, out + [Clean(x)], y);
      assert Clean(x) in out + [Clean(x)];
    }
  }

  /** A blank text or an empty map. */
  predicate Empty(v: Value) {
    || (v.Str? && AllSpace(v.s)) || (v.StrMap? && v.strs == map[]) || (v.Obj? && v.fields == map[])
  }

  /** Cleaning takes out what is empty and the outer space of texts, and nothing else. */
  lemma CleanIff(args: Args, key: Key)
    ensures key in Clean(args) <==> key in args && !Empty(args[key])
    ensures key in Clean(args) ==>
              Clean(args)[key] == if args[key].Str? then Str(TrimSpace(args[key].s)) else args[key]
  {
    if key in args && args[key].Str? {
      var pre, post := TrimSpaceSplits(args[key].s);
      TrimLeftEmpty(args[key].s);
    }
  }

  // ------------------------------------------------------------------ the attempts for a query

  function RawAttempts(r: Request, query: string): seq<Args> {
    FromContract(r, query)
    + [Primary(r, query)] + [Renamed(r, query, Expr)] + [Renamed(r, query, QueryKey(r.action))]
  }

  function FromContract(r: Request, query: string): (pre: seq<Args>)
    ensures |pre| <= 1
  {
    var filtered := Filtered(r, query);
    if r.contract.properties != {} && filtered != map[] then [filtered] else []
  }

  function Attempts(r: Request, query: string): seq<Args> { Deduped(r.marshal, RawAttempts(r, query)) }

  method BuildArgAttempts(r: Request, query: string) returns (attempts: seq<Args>)
    ensures attempts == Attempts(r, query)
  {
    attempts := [];
    if r.contract.properties != {} {
      var filtered := EnsureRequired(r, query, Allowed(r, Rich(r, query)));
      if filtered != map[] {
        attempts := attempts + [filtered];
      }
    }
    assert attempts == FromContract(r, query);
    attempts := attempts + [Primary(r, query)];
    attempts := attempts + [Renamed(r, query, Expr)];
    if r.action.Logs? {
      attempts := attempts + [Renamed(r, query, LogQL)];
    }
    if r.action.Metrics? {
      attempts := attempts + [Renamed(r, query, PromQL)];
    }
    attempts := DedupeArgs(r.marshal, attempts);
  }

  /** Of the names for a query, the attempt uses this one only. */
  predicate Spelled(args: Args, key: Key) { args.Keys * QUERY_KEYS == {key} }

  lemma CleanSpelling(args: Args, query: string, key: Key)
    requires TrimSpace(query) != "" && Spelled(args, key) && args[key] == Str(query)
    ensures Spelled(Clean(args), key)
  {
    assert key in args.Keys * QUERY_KEYS;
    assert CleanValue(args[key]).Some?;
    assert forall k <- Clean(args) :: k in args;
  }

  lemma PrimarySpelling(r: Request, query: string)
    ensures Spelled(Primary(r, query), Query) && Primary(r, query)[Query] == Str(query)
  {
    assert Query !in Pick(r, CONTEXT_KEYS);
  }

  lemma RenamedSpelling(r: Request, query: string, key: Key)
    requires key in QUERY_KEYS
    ensures Spelled(Renamed(r, query, key), key)
  {
    PrimarySpelling(r, query);
    var p := Primary(r, query);
    assert p.Keys * QUERY_KEYS == {Query};
    assert (p - {Query}).Keys == p.Keys - {Query};
  }

  /** Spellings with different names have different texts. */
  lemma SpellingsDiffer(marshal: Args -> string, a: Args, b: Args, key: Key, other: Key)
    requires ShowsKeys(marshal) && Spelled(a, key) && Spelled(b, other) && key != other
    ensures marshal(a) != marshal(b)
  {
    assert key in a.Keys * QUERY_KEYS && key !in b.Keys * QUERY_KEYS;
  }

  /** Dropping duplicates from at most one attempt followed by three with pairwise different texts. */
  lemma ThreeOrFour(marshal: Args -> string, pre: seq<Args>, x: Args, y: Args, z: Args)
    requires |pre| <= 1 && Clean(x) != map[] && Clean(y) != map[] && Clean(z) != map[]
    requires Distinct(marshal, [Clean(x), Clean(y), Clean(z)])
    ensures 3 <= |Deduped(marshal, pre + [x] + [y] + [z])| <= 4
  {
    var xs := pre + [x] + [y] + [z];
    var out, c := Deduped(marshal, xs), [Clean(x), Clean(y), Clean(z)];
    DedupedAtMost(marshal, xs);
    DedupedLosesNothing(marshal, xs);
    assert x in xs && y in xs && z in xs;
    assert Distinct(marshal, c) && c[0] == Clean(x) && c[1] == Clean(y) && c[2] == Clean(z);
    ThreeSeen(marshal, out, c[0], c[1], c[2]);
  }

  lemma ThreeSeen(marshal: Args -> string, out: seq<Args>, a: Args, b: Args, c: Args)
    requires Seen(marshal, out, a) && Seen(marshal, out, b) && Seen(marshal, out, c)
    requires marshal(a) != marshal(b) && marshal(b) != marshal(c) && marshal(a) != marshal(c)
    ensures |out| >= 3
  {
    var i :| 0 <= i < |out| && marshal(out[i]) == marshal(a);
    var j :| 0 <= j < |out| && marshal(out[j]) == marshal(b);
    var k :| 0 <= k < |out| && marshal(out[k]) == marshal(c);
    assert i != j && j != k && i != k;
  }

  lemma {:induction false} DedupedAtMost(marshal: Args -> string, xs: seq<Args>)
    ensures |Deduped(marshal, xs)| <= |xs|
  {
    if xs == [] {
    } else {
      DedupedAtMost(marshal, xs[..|xs| - 1]);
    }
  }

  /** Three or four attempts, no two alike. */
  lemma AttemptsShape(r: Request, query: string)
    requires ShowsKeys(r.marshal) && TrimSpace(query) != ""
    ensures 3 <= |Attempts(r, query)| <= 4 && Distinct(r.marshal, Attempts(r, query))
  {
    var key := QueryKey(r.action);
    var x, y, z := Primary(r, query), Renamed(r, query, Expr), Renamed(r, query, key);
    PrimarySpelling(r, query);
    RenamedSpelling(r, query, Expr);
    RenamedSpelling(r, query, key);
    CleanSpelling(x, query, Query);
    CleanSpelling(y, query, Expr);
    CleanSpelling(z, query, key);
    ThreeDiffer(r.marshal, Clean(x), Clean(y), Clean(z), Query, Expr, key);
    ThreeOrFour(r.marshal, FromContract(r, query), x, y, z);
    DedupedIsDistinct(r.marshal, RawAttempts(r, query));
  }

  lemma ThreeDiffer(marshal: Args -> string, a: Args, b: Args, c: Args, ka: Key, kb: Key, kc: Key)
    requires ShowsKeys(marshal) && Spelled(a, ka) && Spelled(b, kb) && Spelled(c, kc)
    requires ka != kb && kb != kc && ka != kc
    ensures a != map[] && b != map[] && c != map[] && Distinct(marshal, [a, b, c])
  {
    SpellingsDiffer(marshal, a, b, ka, kb);
    SpellingsDiffer(marshal, a, c, ka, kc);
    SpellingsDiffer(marshal, b, c, kb, kc);
    assert ka in a.Keys * QUERY_KEYS && kb in b.Keys * QUERY_KEYS && kc in c.Keys * QUERY_KEYS;
  }

  /** Under whichever name an attempt carries the query, it carries all of it. */
  predicate CarriesQuery(args: Args, query: string) {
    forall k <- args.Keys * QUERY_KEYS :: args[k] == Str(query)
  }

  lemma FilteredCarriesQuery(r: Request, query: string)
    requires TrimSpace(query) == query != ""
    ensures CarriesQuery(Filtered(r, query), query)
  {
    assert CarriesQuery(Rich(r, query), query);
    var allowed := Allowed(r, Rich(r, query));
    forall k | k in allowed.Keys * QUERY_KEYS ensures allowed[k] == Str(query) {
      assert k in Rich(r, query).Keys * QUERY_KEYS;
    }
  }

  lemma RenamedCarriesQuery(r: Request, query: string, key: Key)
    requires key in QUERY_KEYS
    ensures CarriesQuery(Renamed(r, query, key), query)
  {
    RenamedSpelling(r, query, key);
  }

  lemma RawCarriesQuery(r: Request, query: string, x: Args)
    requires TrimSpace(query) == query != "" && x in RawAttempts(r, query)
    ensures CarriesQuery(x, query)
  {
    FilteredCarriesQuery(r, query);
    PrimarySpelling(r, query);
    RenamedCarriesQuery(r, query, Expr);
    RenamedCarriesQuery(r, query, QueryKey(r.action));
    var f, p := Filtered(r, query), Primary(r, query);
    var e, q := Renamed(r, query, Expr), Renamed(r, query, QueryKey(r.action));
    assert CarriesQuery(p, query);
    assert x in FromContract(r, query) || x == p || x == e || x == q;
  }

  lemma CleanCarriesQuery(x: Args, query: string)
    requires TrimSpace(query) == query && CarriesQuery(x, query)
    ensures CarriesQuery(Clean(x), query)
  {
    forall k | k in Clean(x).Keys * QUERY_KEYS ensures Clean(x)[k] == Str(query) {
      assert k in x.Keys * QUERY_KEYS;
    }
  }

  /** Every attempt carries the query unchanged under each name that it uses for it. */
  lemma AttemptsCarryQuery(r: Request, query: string)
    requires TrimSpace(query) == query != ""
    ensures forall a <- Attempts(r, query) :: CarriesQuery(a, query)
  {
    DedupedAddsNothing(r.marshal, RawAttempts(r, query));
    forall a | a in Attempts(r, query) ensures CarriesQuery(a, query) {
      var x :| x in RawAttempts(r, query) && a == Clean(x);
      RawCarriesQuery(r, query, x);
      CleanCarriesQuery(x, query);
    }
  }

  // ------------------------------------------------------------------ the values of the arguments

  /** What an argument other than the query may hold: what was asked for under that name. A limit that the tool requires
      and that was not given, or that the tool does not declare, is 500. */
  predicate AsAsked(r: Request, key: Key, v: Value) {
    match key
    case From | Start => "from" in r.timeRange && v == Str(TrimSpace(r.timeRange["from"]))
    case To | End => "to" in r.timeRange && v == Str(TrimSpace(r.timeRange["to"]))
    case DatasourceUid | DatasourceUidSnake => v == Str(TrimSpace(r.uid))
    case Datasource => v == Obj(r.datasource)
    case TimeRange | Range => v == StrMap(r.timeRange)
    case Limit =>
      var given := r.limit.Some? && r.limit.value > 0;
      || (given && v == Num(r.limit.value))
      || (v == Num(500) && Limit in r.contract.required && !(given && Limit in r.contract.properties))
    case Step => v == Str(TrimSpace(r.step))
    case Instant => r.instant.Some? && v == Flag(r.instant.value)
    case Direction => r.direction in ["forward", "backward"] && v == Str(r.direction)
    case Other(_) => false
    case _ => true
  }

  predicate AllAsAsked(r: Request, args: Args) { forall k <- args :: AsAsked(r, k, args[k]) }

  lemma KnownIsAsAsked(r: Request, key: Key)
    requires Known(r, key).Some?
    ensures AsAsked(r, key, Known(r, key).value)
  {
  }

  lemma PrimaryIsAsAsked(r: Request, query: string)
    ensures AllAsAsked(r, Primary(r, query))
  {
    var p := Primary(r, query);
    forall k | k in p ensures AsAsked(r, k, p[k]) {
      if k in Pick(r, CONTEXT_KEYS) {
        KnownIsAsAsked(r, k);
      }
    }
  }

  lemma RenamedIsAsAsked(r: Request, query: string, key: Key)
    requires key in QUERY_KEYS
    ensures AllAsAsked(r, Renamed(r, query, key))
  {
    PrimaryIsAsAsked(r, query);
  }

  lemma AllowedIsAsAsked(r: Request, query: string)
    ensures AllAsAsked(r, Allowed(r, Rich(r, query)))
  {
    var a := Allowed(r, Rich(r, query));
    forall k | k in a ensures AsAsked(r, k, a[k]) {
      if k in Pick(r, RICH_KEYS) {
        KnownIsAsAsked(r, k);
      }
    }
  }

  lemma FilteredIsAsAsked(r: Request, query: string)
    ensures AllAsAsked(r, Filtered(r, query))
  {
    var allowed, f := Allowed(r, Rich(r, query)), Filtered(r, query);
    AllowedIsAsAsked(r, query);
    forall k | k in f ensures AsAsked(r, k, f[k]) {
      if k !in allowed && k != Limit {
        if Known(r, k).Some? {
          KnownIsAsAsked(r, k);
        }
      } else if k !in allowed {
        assert Limit in Pick(r, RICH_KEYS) && Limit in r.contract.properties ==> Limit in allowed;
      }
    }
  }

  lemma CleanKeeps(r: Request, key: Key, v: Value)
    requires key !in QUERY_KEYS && AsAsked(r, key, v) && CleanValue(v).Some?
    ensures CleanValue(v).value == v
  {
    if v.Str? {
      TrimSpaceIsTrim(v.s);
      if key.From? || key.Start? {
        TrimSpaceIsTrim(r.timeRange["from"]);
        TrimSpaceIsTrim(TrimSpace(r.timeRange["from"]));
      } else if key.To? || key.End? {
        TrimSpaceIsTrim(r.timeRange["to"]);
        TrimSpaceIsTrim(TrimSpace(r.timeRange["to"]));
      } else if key.Step? {
        TrimSpaceIsTrim(r.step);
        TrimSpaceIsTrim(TrimSpace(r.step));
      } else if key.DatasourceUid? || key.DatasourceUidSnake? {
        TrimSpaceIsTrim(r.uid);
        TrimSpaceIsTrim(TrimSpace(r.uid));
      }
    }
  }

  lemma CleanIsAsAsked(r: Request, x: Args)
    requires AllAsAsked(r, x)
    ensures AllAsAsked(r, Clean(x))
  {
    forall k | k in Clean(x) ensures AsAsked(r, k, Clean(x)[k]) {
      if k !in QUERY_KEYS {
        CleanKeeps(r, k, x[k]);
      }
    }
  }

  /** Every argument of every attempt is what was asked for under its name. */
  lemma AttemptsAreAsAsked(r: Request, query: string)
    ensures forall a <- Attempts(r, query) :: AllAsAsked(r, a)
  {
    DedupedAddsNothing(r.marshal, RawAttempts(r, query));
    forall a | a in Attempts(r, query) ensures AllAsAsked(r, a) {
      var x :| x in RawAttempts(r, query) && a == Clean(x);
      RawIsAsAsked(r, query, x);
      CleanIsAsAsked(r, x);
    }
  }

  lemma RawIsAsAsked(r: Request, query: string, x: Args)
    requires x in RawAttempts(r, query)
    ensures AllAsAsked(r, x)
  {
    FilteredIsAsAsked(r, query);
    PrimaryIsAsAsked(r, query);
    RenamedIsAsAsked(r, query, Expr);
    RenamedIsAsAsked(r, query, QueryKey(r.action));
    assert x in FromContract(r, query) || x in [Primary(r, query)] || x in [Renamed(r, query, Expr)]
        || x in [Renamed(r, query, QueryKey(r.action))];
  }

  /** The request says something under this name. */
  predicate Asked(r: Request, key: Key) {
    match key
    case Query | Expr => true
    case PromQL => r.action.Metrics?
    case LogQL => r.action.Logs?
    case From | Start => "from" in r.timeRange && TrimSpace(r.timeRange["from"]) != ""
    case To | End => "to" in r.timeRange && TrimSpace(r.timeRange["to"]) != ""
    case DatasourceUid | DatasourceUidSnake => TrimSpace(r.uid) != ""
    case Datasource => r.datasource != map[]
    case TimeRange | Range => r.timeRange != map[]
    case Limit => r.limit.Some? && r.limit.value > 0
    case Step => TrimSpace(r.step) != ""
    case Instant => r.instant.Some?
    case Direction => r.direction in ["forward", "backward"]
    case Other(_) => false
  }

  const PLAIN_KEYS: set<Key> :=
    {From, To, TimeRange, DatasourceUid, Datasource, Limit, Step, Instant, Direction}

  lemma KnownSurvives(r: Request, key: Key)
    requires key !in QUERY_KEYS && Asked(r, key)
    ensures Known(r, key).Some? && CleanValue(Known(r, key).value).Some?
  {
    var v := Known(r, key).value;
    KnownIsAsAsked(r, key);
    if v.Str? {
      TrimmedTwice(if key.From? || key.Start? then r.timeRange["from"]
                   else if key.To? || key.End? then r.timeRange["to"]
                   else if key.Step? then r.step else r.uid);
      ForwardIsTrim();
    }
  }

  lemma TrimmedTwice(s: string)
    ensures TrimSpace(TrimSpace(s)) == TrimSpace(s)
  {
    TrimSpaceIsTrim(s);
    TrimSpaceIsTrim(TrimSpace(s));
  }

  lemma ForwardIsTrim()
    ensures TrimSpace("forward") == "forward" && TrimSpace("backward") == "backward"
  {
    TrimSpaceIsTrim("forward");
    TrimSpaceIsTrim("backward");
  }

  lemma PrimaryHasAll(r: Request, query: string, key: Key)
    requires key in PLAIN_KEYS && Asked(r, key)
    ensures key in Clean(Primary(r, query))
  {
    if key != Datasource {
      KnownSurvives(r, key);
      assert key in Pick(r, CONTEXT_KEYS);
    }
  }

  /** The arguments that carry the query under one name. */
  function Spelling(r: Request, query: string, name: Key): Args {
    if name == Query then Primary(r, query) else Renamed(r, query, name)
  }

  lemma SpellingClean(r: Request, query: string, name: Key)
    requires TrimSpace(query) == query != "" && name in QUERY_KEYS
    ensures Spelled(Clean(Spelling(r, query, name)), name)
  {
    PrimarySpelling(r, query);
    if name != Query {
      RenamedSpelling(r, query, name);
    }
    CleanSpelling(Spelling(r, query, name), query, name);
  }

  /** Renaming one argument leaves the others. */
  lemma RenamedKeeps(p: Args, name: Key, v: Value, key: Key)
    requires key != Query && key != name
    ensures key in Clean((p - {Query})[name := v]) <==> key in Clean(p)
  {
  }

  lemma SpellingHasAll(r: Request, query: string, name: Key, key: Key)
    requires name in QUERY_KEYS && key in PLAIN_KEYS && Asked(r, key)
    ensures key in Clean(Spelling(r, query, name))
  {
    PrimaryHasAll(r, query, key);
    if name != Query {
      RenamedKeeps(Primary(r, query), name, Str(query), key);
    }
  }

  lemma SpellingIsRaw(r: Request, query: string, name: Key)
    requires name == Query || name == Expr || name == QueryKey(r.action)
    ensures Spelling(r, query, name) in RawAttempts(r, query)
  {
    var x := Spelling(r, query, name);
    assert x in [Primary(r, query)] || x in [Renamed(r, query, Expr)] || x in [Renamed(r, query, QueryKey(r.action))];
  }

  /** Three attempts say all that was asked for, and the query under one name each: query, expr, and promql for metrics
      or logql for logs. */
  lemma AttemptsSayAll(r: Request, query: string, name: Key)
    requires ShowsKeys(r.marshal) && TrimSpace(query) == query != ""
    requires name == Query || name == Expr || name == if r.action.Metrics? then PromQL else LogQL
    ensures exists a <- Attempts(r, query) :: Spelled(a, name) && forall k <- PLAIN_KEYS :: Asked(r, k) ==> k in a
  {
    var c := Clean(Spelling(r, query, name));
    SpellingClean(r, query, name);
    SpellingIsRaw(r, query, name);
    assert name in c.Keys * QUERY_KEYS;
    DedupedLosesNothing(r.marshal, RawAttempts(r, query));
    var a :| a in Attempts(r, query) && r.marshal(a) == r.marshal(c);
    assert a.Keys == c.Keys;
    forall k | k in PLAIN_KEYS && Asked(r, k) ensures k in a {
      SpellingHasAll(r, query, name, k);
    }
  }

  // ------------------------------------------------------------------ the attempt that follows the tool's contract

  lemma DedupedGrows(marshal: Args -> string, xs: seq<Args>, x: Args)
    ensures Deduped(marshal, xs) <= Deduped(marshal, xs + [x])
  {
    assert (xs + [x])[..|xs|] == xs;
  }

  lemma DedupedOne(marshal: Args -> string, x: Args)
    requires Clean(x) != map[]
    ensures Deduped(marshal, [x]) == [Clean(x)]
  {
    assert [x][..0] == [];
  }

  lemma FirstFollowsContract(r: Request, query: string)
    requires FromContract(r, query) != [] && Clean(Filtered(r, query)) != map[]
    ensures Attempts(r, query) != [] && Attempts(r, query)[0] == Clean(Filtered(r, query))
  {
    var f := Filtered(r, query);
    DedupedOne(r.marshal, f);
    DedupedStarts(r.marshal, [f], Primary(r, query), Renamed(r, query, Expr), Renamed(r, query, QueryKey(r.action)));
  }

  lemma DedupedStarts(marshal: Args -> string, xs: seq<Args>, a: Args, b: Args, c: Args)
    ensures Deduped(marshal, xs) <= Deduped(marshal, xs + [a] + [b] + [c])
  {
    DedupedGrows(marshal, xs, a);
    DedupedGrows(marshal, xs + [a], b);
    DedupedGrows(marshal, xs + [a] + [b], c);
  }

  /** The names that a required argument can be filled under. */
  predicate Fillable(r: Request, key: Key) {
    key in QUERY_KEYS || key == Limit || (key !in {Step, Instant, Direction} && Asked(r, key))
  }

  /** A tool that declares its arguments is first tried with those alone: everything that was asked for under a declared
      name, and everything required that can be filled in. */
  lemma ContractComesFirst(r: Request, query: string, key: Key)
    requires TrimSpace(query) == query != "" && r.contract.properties != {}
    requires (key in r.contract.properties && Asked(r, key)) || (key in r.contract.required && Fillable(r, key))
    ensures Attempts(r, query) != []
    ensures var first := Attempts(r, query)[0];
            key in first && first.Keys <= r.contract.properties + r.contract.required
  {
    FilteredHas(r, query, key);
    assert key in Clean(Filtered(r, query));
    FirstFollowsContract(r, query);
  }

  lemma FilteredHas(r: Request, query: string, key: Key)
    requires TrimSpace(query) == query != ""
    requires (key in r.contract.properties && Asked(r, key)) || (key in r.contract.required && Fillable(r, key))
    ensures key in Filtered(r, query) && CleanValue(Filtered(r, query)[key]).Some?
  {
    var allowed := Allowed(r, Rich(r, query));
    FilteredHasKey(r, query, key);
    var v := Filtered(r, query)[key];
    if key in QUERY_KEYS {
      FilteredCarriesQuery(r, query);
      assert key in Filtered(r, query).Keys * QUERY_KEYS;
    } else if Known(r, key).Some? && v == Known(r, key).value {
      KnownSurvives(r, key);
    }
  }

  /** What stands under a name is what is known or what fills it. */
  lemma FilteredHasKey(r: Request, query: string, key: Key)
    requires TrimSpace(query) == query != ""
    requires (key in r.contract.properties && Asked(r, key)) || (key in r.contract.required && Fillable(r, key))
    ensures key in Filtered(r, query)
    ensures key !in QUERY_KEYS ==>
              var v := Filtered(r, query)[key];
              (Known(r, key).Some? && v == Known(r, key).value) || (key == Limit && v == Num(DEFAULT_LIMIT))
  {
    if key !in QUERY_KEYS && Asked(r, key) {
      KnownSurvives(r, key);
      assert key in RICH_KEYS;
    }
  }

  // ------------------------------------------------------------------ the correction

  function TrimTicksLeft(s: string): string { if s != "" && s[0] == '`' then TrimTicksLeft(s[1..]) else s }

  function TrimTicksRight(s: string): string {
    if s != "" && s[|s| - 1] == '`' then TrimTicksRight(s[..|s| - 1]) else s
  }

  function TrimTicks(s: string): string { TrimTicksRight(TrimTicksLeft(s)) }

  predicate HasSuffix(s: string, suffix: string) { |s| >= |suffix| && s[|s| - |suffix|..] == suffix }

  function TrimSuffix(s: string, suffix: string): string { if HasSuffix(s, suffix) then s[..|s| - |suffix|] else s }

  /** The query without backticks and one final semicolon. */
  function Unwrapped(query: string): string {
    var s1 := TrimSpace(TrimTicks(TrimSpace(query)));
    var s2 := TrimSpace(TrimSuffix(s1, ";"));
    TrimSpace(TrimTicks(s2))
  }

  function Corrected(action: Action, query: string): string {
    if TrimSpace(query) == "" then ""
    else
      var closed := Repaired(Unwrapped(query));
      var trimmed := TrimSpace(closed);
      if action.Logs? && (HasSuffix(trimmed, "|=") || HasSuffix(trimmed, "|~")) then trimmed + " \"\"" else closed
  }

  datatype Hint = NoHint | NeedsQuery | CorrectionApplied | NoRewriteFound

  /** The advice that goes with a correction: whether it changes the query without its outer space. */
  function HintFor(action: Action, query: string): Hint {
    if TrimSpace(query) == "" then NeedsQuery
    else if Corrected(action, query) != TrimSpace(query) then CorrectionApplied
    else NoRewriteFound
  }

  predicate Neutral(c: char) { c !in "([{)]}" }

  lemma {:induction false} ResidualAfterNeutral(k: Kind, c: char, s: string)
    requires Neutral(c)
    ensures Residual(k, [c] + s) == Residual(k, s)
  {
    if s == "" {
      ResidualSnoc(k, "", c);
      assert [] + [c] == [c] + "";
    } else {
      var n := |s| - 1;
      ResidualAfterNeutral(k, c, s[..n]);
      ResidualSnoc(k, [c] + s[..n], s[n]);
      assert [c] + s == [c] + s[..n] + [s[n]];
    }
  }

  lemma {:induction false} TrimLeftBalance(k: Kind, s: string)
    ensures Residual(k, TrimLeft(s)) == Residual(k, s)
  {
    if s != "" && IsSpace(s[0]) {
      TrimLeftBalance(k, s[1..]);
      ResidualAfterNeutral(k, s[0], s[1..]);
      assert s == [s[0]] + s[1..];
    }
  }

  lemma {:induction false} TrimRightBalance(k: Kind, s: string)
    ensures Residual(k, TrimRight(s)) == Residual(k, s)
  {
    if s != "" && IsSpace(s[|s| - 1]) {
      TrimRightBalance(k, s[..|s| - 1]);
    }
  }

  lemma TrimSpaceBalance(k: Kind, s: string)
    ensures Residual(k, TrimSpace(s)) == Residual(k, s)
  {
    TrimLeftBalance(k, s);
    TrimRightBalance(k, TrimLeft(s));
  }

  lemma QuotesBalance(k: Kind, s: string)
    ensures Residual(k, s + " \"\"") == Residual(k, s)
  {
    ResidualSnoc(k, s, ' ');
    ResidualSnoc(k, s + " ", '"');
    ResidualSnoc(k, s + " " + "\"", '"');
    assert s + " \"\"" == s + " " + "\"" + "\"";
  }

  /** A corrected query is balanced in each kind of delimiter. */
  lemma CorrectedIsBalanced(action: Action, query: string)
    ensures Balanced(Corrected(action, query))
  {
    var closed := Repaired(Unwrapped(query));
    var c := Corrected(action, query);
    RepairedIsBalanced(Unwrapped(query));
    forall k ensures Residual(k, c) == 0 {
      TrimSpaceBalance(k, closed);
      QuotesBalance(k, TrimSpace(closed));
      assert c == "" || c == closed || c == TrimSpace(closed) + " \"\"";
    }
  }

  /** What is sent the second time has no outer space either. */
  lemma CorrectedIsTrim(action: Action, query: string)
    ensures TrimSpace(Corrected(action, query)) == Corrected(action, query)
  {
    var s := Unwrapped(query);
    TrimSpaceIsTrim(TrimTicks(TrimSpace(TrimSuffix(TrimSpace(TrimTicks(TrimSpace(query))), ";"))));
    var closed := Repaired(s);
    RepairedIsTrim(s);
    TrimSpaceIsTrim(closed);
    TrimSpaceIsTrim(Corrected(action, query));
  }

  lemma {:induction false} RepeatMembers(c: char, n: nat)
    ensures forall x <- Repeat(c, n) :: x == c
  {
    if n == 0 {
    } else {
      RepeatMembers(c, n - 1);
    }
  }

  lemma ClosersHaveNoSpace(q: string)
    ensures forall c <- Closers(q) :: !IsSpace(c)
  {
    RepeatMembers(')', Residual(Paren, q));
    RepeatMembers(']', Residual(Bracket, q));
    RepeatMembers('}', Residual(Brace, q));
  }

  lemma RepairedIsTrim(q: string)
    requires Trim(q)
    ensures Trim(Repaired(q))
  {
    ClosersHaveNoSpace(q);
    var t := Closers(q);
    assert t != "" ==> t[0] in t && t[|t| - 1] in t;
    if q == "" {
      assert Repaired(q) == t;
    } else if t == "" {
      assert Repaired(q) == q;
    }
  }

  // ------------------------------------------------------------------ what the correction unwraps

  /** A query with nothing around it that the correction takes off. */
  predicate Bare(q: string) {
    q != "" && Trim(q) && q[0] != '`' && q[|q| - 1] != '`' && q[|q| - 1] != ';'
  }

  /** Backticks around a query, and a semicolon before, between or behind the closing ones. */
  function Wrap(a: nat, q: string, b: nat, semicolon: bool, c: nat): string {
    Repeat('`', a) + (q + Repeat('`', b) + (if semicolon then ";" else "") + Repeat('`', c))
  }

  lemma {:induction false} TicksLeft(a: nat, t: string)
    requires t == "" || t[0] != '`'
    ensures TrimTicksLeft(Repeat('`', a) + t) == t
  {
    if a == 0 {
      assert Repeat('`', 0) + t == t;
    } else {
      RepeatShift('`', a - 1);
      assert Repeat('`', a) + t == ['`'] + (Repeat('`', a - 1) + t);
      assert (['`'] + (Repeat('`', a - 1) + t))[1..] == Repeat('`', a - 1) + t;
      TicksLeft(a - 1, t);
    }
  }

  lemma {:induction false} TicksRight(t: string, n: nat)
    requires t == "" || t[|t| - 1] != '`'
    ensures TrimTicksRight(t + Repeat('`', n)) == t
  {
    if n == 0 {
      assert t + "" == t;
    } else {
      var u := t + Repeat('`', n);
      assert u[..|u| - 1] == t + Repeat('`', n - 1);
      TicksRight(t, n - 1);
    }
  }

  lemma {:induction false} RepeatTwice(c: char, m: nat, n: nat)
    ensures Repeat(c, m) + Repeat(c, n) == Repeat(c, m + n)
  {
    if n == 0 {
      assert Repeat(c, m) + "" == Repeat(c, m);
    } else {
      RepeatTwice(c, m, n - 1);
      Regroup(Repeat(c, m), Repeat(c, n - 1), [c]);
    }
  }

  lemma RepeatEnds(c: char, n: nat)
    ensures n > 0 ==> Repeat(c, n)[0] == c && Repeat(c, n)[n - 1] == c
  {
    RepeatMembers(c, n);
  }

  lemma WrapIsTrim(a: nat, q: string, b: nat, semicolon: bool, c: nat)
    requires Bare(q)
    ensures Trim(Wrap(a, q, b, semicolon, c))
  {
    RepeatEnds('`', a);
    RepeatEnds('`', b);
    RepeatEnds('`', c);
  }

  lemma TicksAround(a: nat, t: string, c: nat)
    requires t != "" && t[0] != '`' && t[|t| - 1] != '`'
    ensures TrimTicks(Repeat('`', a) + (t + Repeat('`', c))) == t
  {
    TicksLeft(a, t + Repeat('`', c));
    TicksRight(t, c);
  }

  lemma WrapWithout(a: nat, q: string, b: nat, c: nat)
    ensures Wrap(a, q, b, false, c) == Repeat('`', a) + (q + Repeat('`', b + c))
  {
    var inner := q + Repeat('`', b);
    RepeatTwice('`', b, c);
    assert inner + "" == inner;
    Regroup(q, Repeat('`', b), Repeat('`', c));
  }

  /** Taking the outer ticks off leaves at most the inner ticks and the semicolon. */
  lemma OuterTicks(a: nat, q: string, b: nat, semicolon: bool, c: nat)
    requires Bare(q)
    ensures TrimTicks(Wrap(a, q, b, semicolon, c)) == if semicolon then q + Repeat('`', b) + ";" else q
  {
    if semicolon {
      TicksAround(a, q + Repeat('`', b) + ";", c);
    } else {
      WrapWithout(a, q, b, c);
      TicksAround(a, q, b + c);
    }
  }

  lemma InnerTicks(q: string, b: nat)
    requires Bare(q)
    ensures TrimTicks(q + Repeat('`', b)) == q && Trim(q + Repeat('`', b))
  {
    TicksAround(0, q, b);
    RepeatEnds('`', b);
    assert Repeat('`', 0) + (q + Repeat('`', b)) == q + Repeat('`', b);
  }

  lemma SuffixOff(s: string, c: char)
    ensures TrimSuffix(s + [c], [c]) == s
    ensures s != "" && s[|s| - 1] != c ==> TrimSuffix(s, [c]) == s
  {
    assert (s + [c])[|s|..] == [c];
    if s != "" {
      assert s[|s| - 1..] == [s[|s| - 1]];
    }
  }

  lemma UnwrappedOfWrap(a: nat, q: string, b: nat, semicolon: bool, c: nat)
    requires Bare(q)
    ensures Unwrapped(Wrap(a, q, b, semicolon, c)) == q
  {
    var w := Wrap(a, q, b, semicolon, c);
    WrapIsTrim(a, q, b, semicolon, c);
    TrimSpaceIsTrim(w);
    OuterTicks(a, q, b, semicolon, c);
    UnwrappedInside(q, if semicolon then b else 0, semicolon, TrimTicks(w));
  }

  lemma UnwrappedInside(q: string, b: nat, semicolon: bool, s: string)
    requires Bare(q) && s == if semicolon then q + Repeat('`', b) + ";" else q
    requires !semicolon ==> b == 0
    ensures TrimSpace(TrimTicks(TrimSpace(TrimSuffix(TrimSpace(s), ";")))) == q
  {
    var inner := q + Repeat('`', b);
    InnerTicks(q, b);
    TrimSpaceIsTrim(s);
    TrimSpaceIsTrim(inner);
    TrimSpaceIsTrim(q);
    SuffixOff(inner, ';');
    SuffixOff(q, ';');
    assert b == 0 ==> inner == q;
  }

  /** Outer space, backticks and one final semicolon come off and the missing closers go on; a log query that then ends
      in a line filter without its text gets an empty one. */
  lemma CorrectedOfWrap(action: Action, a: nat, q: string, b: nat, semicolon: bool, c: nat)
    requires Bare(q)
    ensures var closed := Repaired(q);
            Corrected(action, Wrap(a, q, b, semicolon, c)) ==
              if action.Logs? && (HasSuffix(closed, "|=") || HasSuffix(closed, "|~")) then closed + " \"\"" else closed
  {
    var w := Wrap(a, q, b, semicolon, c);
    WrapIsTrim(a, q, b, semicolon, c);
    TrimSpaceIsTrim(w);
    UnwrappedOfWrap(a, q, b, semicolon, c);
    RepairedIsTrim(q);
    TrimSpaceIsTrim(Repaired(q));
  }

  // ------------------------------------------------------------------ the tool's errors

  predicate MatchAny(text: string, patterns: seq<string>) { exists p <- patterns :: Contains(text, p) }

  const PARSE_PHRASES: seq<string> :=
    ["syntax error", "parse error", "cannot parse", "failed to parse", "parse failure"]

  const END_PHRASES: seq<string> := ["unexpected end of input", "unexpected eof", "unterminated", "unclosed",
                                     "missing )", "missing ]", "missing }"]

  const QUERY_PHRASES: seq<string> := ["invalid query", "bad_data", "bad data", "unexpected token",
                                       "unexpected character"]

  function SyntaxReason(lower: char -> char, error: string): Option<string> {
    var text := ToLower(lower, TrimSpace(error));
    if text == "" then None
    else if MatchAny(text, PARSE_PHRASES) then Some("parse_failure")
    else if MatchAny(text, END_PHRASES) then Some("unterminated_expression")
    else if MatchAny(text, QUERY_PHRASES) then Some("invalid_query_syntax")
    else None
  }

  lemma AnyOfFive(text: string, a: string, b: string, c: string, d: string, e: string)
    ensures MatchAny(text, [a, b, c, d, e])
       <==> Contains(text, a) || Contains(text, b) || Contains(text, c) || Contains(text, d) || Contains(text, e)
  {
    var ps := [a, b, c, d, e];
    assert ps[0] in ps && ps[1] in ps && ps[2] in ps && ps[3] in ps && ps[4] in ps;
  }

  lemma AnyOfSeven(text: string, a: string, b: string, c: string, d: string, e: string, f: string, g: string)
    ensures MatchAny(text, [a, b, c, d, e, f, g])
       <==> || Contains(text, a) || Contains(text, b) || Contains(text, c) || Contains(text, d)
            || Contains(text, e) || Contains(text, f) || Contains(text, g)
  {
    var ps := [a, b, c, d, e, f, g];
    assert ps[0] in ps && ps[1] in ps && ps[2] in ps && ps[3] in ps && ps[4] in ps && ps[5] in ps && ps[6] in ps;
  }

  /** An error counts as one of syntax exactly when it holds one of these phrases, in any case; the reason is that of
      the first group that has one. */
  lemma DetectedIff(lower: char -> char, error: string)
    ensures var text := ToLower(lower, TrimSpace(error));
            var parse := || Contains(text, "syntax error") || Contains(text, "parse error")
                         || Contains(text, "cannot parse") || Contains(text, "failed to parse")
                         || Contains(text, "parse failure");
            var end := || Contains(text, "unexpected end of input") || Contains(text, "unexpected eof")
                       || Contains(text, "unterminated") || Contains(text, "unclosed")
                       || Contains(text, "missing )") || Contains(text, "missing ]") || Contains(text, "missing }");
            var query := || Contains(text, "invalid query") || Contains(text, "bad_data") || Contains(text, "bad data")
                         || Contains(text, "unexpected token") || Contains(text, "unexpected character");
            && (SyntaxReason(lower, error).Some? <==> parse || end || query)
            && (parse ==> SyntaxReason(lower, error) == Some("parse_failure"))
            && (!parse && end ==> SyntaxReason(lower, error) == Some("unterminated_expression"))
            && (!parse && !end && query ==> SyntaxReason(lower, error) == Some("invalid_query_syntax"))
  {
    var text := ToLower(lower, TrimSpace(error));
    AnyOfFive(text, "syntax error", "parse error", "cannot parse", "failed to parse", "parse failure");
    AnyOfSeven(text, "unexpected end of input", "unexpected eof", "unterminated", "unclosed",
               "missing )", "missing ]", "missing }");
    AnyOfFive(text, "invalid query", "bad_data", "bad data", "unexpected token", "unexpected character");
  }

  // ------------------------------------------------------------------ the fetch

  datatype Outcome = Success(result: Value) | Failure(error: string)

  datatype Call = Call(args: Args, outcome: Outcome)

  /** The syntaxRetry part of an answer; its texts are blank where it does not apply. */
  datatype Retry = Retry(detected: bool, applied: bool, reason: string, hint: Hint, original: string, corrected: string)

  const NO_RETRY := Retry(false, false, "", NoHint, "", "")

  datatype Response =
    | InputError
    | ToolUnavailable
    | ToolError(lastError: string, attempts: seq<Call>, retry: Retry)
    | Ok(request: Args, query: string, raw: Value, retry: Retry)

  /** The tool: what the n-th invocation with these arguments does. */
  type Tool = (nat, Args) -> Outcome

  predicate AllFailed(calls: seq<Call>) { forall c <- calls :: c.outcome.Failure? }

  /** `calls` are the first of `xs`, tried in order until one succeeds. */
  predicate IsPass(invoke: Tool, before: nat, xs: seq<Args>, calls: seq<Call>) {
    && |calls| <= |xs|
    && (forall i | 0 <= i < |calls| :: calls[i] == Call(xs[i], invoke(before + i, xs[i])))
    && (forall i | 0 <= i < |calls| - 1 :: calls[i].outcome.Failure?)
    && (|calls| < |xs| ==> calls != [] && calls[|calls| - 1].outcome.Success?)
  }

  /** The loop over a list of attempts, which the source writes once for each pass. */
  method TryAttempts(invoke: Tool, before: nat, xs: seq<Args>) returns (calls: seq<Call>)
    ensures IsPass(invoke, before, xs, calls)
  {
    calls := [];
    for i := 0 to |xs|
      invariant |calls| == i && AllFailed(calls)
      invariant forall j | 0 <= j < i :: calls[j] == Call(xs[j], invoke(before + j, xs[j]))
    {
      var outcome := invoke(before + i, xs[i]);
      calls := calls + [Call(xs[i], outcome)];
      if outcome.Success? {
        break;
      }
      assert forall c <- calls :: c in calls[..i] || c == calls[i];
    }
  }

  /** The second pass is due: everything failed, the last time over syntax, and the correction is another query. */
  ghost predicate RetryDue(lower: char -> char, action: Action, query: string, first: seq<Call>) {
    && first != [] && AllFailed(first)
    && SyntaxReason(lower, first[|first| - 1].outcome.error).Some?
    && Corrected(action, query) != "" && Corrected(action, query) != query
  }

  /** After a syntax error the advice tells of a correction exactly when there is a second pass, or when nothing is left
      of the query; and of none exactly when the correction is the query itself. */
  lemma HintMatchesRetry(lower: char -> char, action: Action, query: string, first: seq<Call>)
    requires query != "" && Trim(query) && first != [] && AllFailed(first)
    requires SyntaxReason(lower, first[|first| - 1].outcome.error).Some?
    ensures HintFor(action, query) == CorrectionApplied
       <==> RetryDue(lower, action, query, first) || Corrected(action, query) == ""
    ensures HintFor(action, query) == NoRewriteFound <==> Corrected(action, query) == query
  {
    TrimSpaceIsTrim(query);
  }

  /** A first pass over `xs` and, when it is `due`, a second one over `ys`. */
  ghost predicate IsRun(invoke: Tool, xs: seq<Args>, ys: seq<Args>, due: bool, first: seq<Call>, second: seq<Call>) {
    && IsPass(invoke, 0, xs, first) && first != []
    && (if due then IsPass(invoke, |first|, ys, second) && second != [] else second == [])
  }

  /** `response` reports a run of `first` and then `second`. */
  ghost predicate Reports(response: Response, retry: Retry, query: string, calls: seq<Call>)
    requires calls != []
  {
    var n := |calls| - 1;
    match response
    case Ok(request, sent, raw, told) =>
      && calls[n] == Call(request, Success(raw)) && AllFailed(calls[..n])
      && sent == (if retry.applied then retry.corrected else query) && told == retry
    case ToolError(lastError, attempts, told) =>
      attempts == calls && AllFailed(calls) && calls[n].outcome == Failure(lastError) && told == retry
    case _ => false
  }

  /** Why the last error of a failed first pass looks like one of syntax, if it does. */
  function Detected(lower: char -> char, first: seq<Call>): Option<string> {
    if first != [] && first[|first| - 1].outcome.Failure? then SyntaxReason(lower, first[|first| - 1].outcome.error)
    else None
  }

  /** What an answer tells about the retry. */
  function RetryInfo(lower: char -> char, action: Action, query: string, first: seq<Call>, due: bool): Retry {
    match Detected(lower, first)
    case None => NO_RETRY
    case Some(reason) =>
      Retry(true, due, reason, HintFor(action, query), query, if due then Corrected(action, query) else "")
  }

  lemma PassFails(invoke: Tool, before: nat, xs: seq<Args>, calls: seq<Call>)
    requires IsPass(invoke, before, xs, calls) && calls != []
    ensures AllFailed(calls) <==> calls[|calls| - 1].outcome.Failure?
    ensures AllFailed(calls[..|calls| - 1])
  {
    assert calls[|calls| - 1] in calls;
  }

  /** All calls of a run but the last fail. */
  lemma RunFails(invoke: Tool, xs: seq<Args>, ys: seq<Args>, due: bool, first: seq<Call>, second: seq<Call>)
    requires IsRun(invoke, xs, ys, due, first, second) && (due ==> AllFailed(first))
    ensures var calls := first + second;
            && AllFailed(calls[..|calls| - 1])
            && (AllFailed(calls) <==> calls[|calls| - 1].outcome.Failure?)
  {
    PassFails(invoke, 0, xs, first);
    if due {
      PassFails(invoke, |first|, ys, second);
      assert (first + second)[..|first + second| - 1] == first + second[..|second| - 1];
    } else {
      assert first + second == first;
    }
  }

  /** The last outcome of a first pass is an error that looks like one of syntax. */
  predicate LooksLikeSyntax(lower: char -> char, first: seq<Call>) {
    && first != [] && first[|first| - 1].outcome.Failure?
    && SyntaxReason(lower, first[|first| - 1].outcome.error).Some?
  }

  /** What a pass is: invocations in order and without a gap, each but the last a failure, and all the attempts unless
      the last one succeeds. */
  lemma PassIsExplained(invoke: Tool, before: nat, xs: seq<Args>, calls: seq<Call>)
    requires IsPass(invoke, before, xs, calls)
    ensures |calls| <= |xs|
    ensures forall i | 0 <= i < |calls| ::
              calls[i].args == xs[i] && calls[i].outcome == invoke(before + i, xs[i])
    ensures forall i | 0 <= i < |calls| - 1 :: calls[i].outcome.Failure?
    ensures xs != [] ==> calls != [] && (calls[|calls| - 1].outcome.Failure? ==> |calls| == |xs|)
  {
  }

  /** A second pass follows exactly a syntax error, and only with another query; it counts on from the first. */
  lemma SecondPassIff(invoke: Tool, xs: seq<Args>, ys: seq<Args>, lower: char -> char, action: Action, query: string,
                      first: seq<Call>, second: seq<Call>)
    requires IsRun(invoke, xs, ys, RetryDue(lower, action, query, first), first, second)
    ensures IsPass(invoke, 0, xs, first) && IsPass(invoke, |first|, if second != [] then ys else [], second)
    ensures second != [] <==>
              LooksLikeSyntax(lower, first) && Corrected(action, query) != "" && Corrected(action, query) != query
  {
    PassFails(invoke, 0, xs, first);
  }

  /** What the answer says of a run, on success and on failure. */
  lemma AnswerIsExplained(lower: char -> char, action: Action, query: string, first: seq<Call>, second: seq<Call>,
                          response: Response)
    requires first != [] && (RetryDue(lower, action, query, first) <==> second != [])
    requires Reports(response, RetryInfo(lower, action, query, first, second != []), query, first + second)
    ensures response.Ok? || response.ToolError?
    ensures var calls := first + second;
            var last := calls[|calls| - 1];
            && (response.Ok? ==>
                  && last.outcome.Success? && response.raw == last.outcome.result && response.request == last.args
                  && response.query == if second != [] then Corrected(action, query) else query)
            && (response.ToolError? ==>
                  last.outcome.Failure? && response.lastError == last.outcome.error && response.attempts == calls)
    ensures var told := response.retry;
            && (told.detected <==> LooksLikeSyntax(lower, first))
            && (told.applied <==> second != [])
            && told.corrected == (if second != [] then Corrected(action, query) else "")
            && (told.detected ==>
                  && told.original == query
                  && Some(told.reason) == SyntaxReason(lower, first[|first| - 1].outcome.error))
            && (!told.detected ==> told.original == "" && told.reason == "" && told.hint == NoHint)
  {
    if second != [] {
      assert first[|first| - 1] in first;
    }
  }

  method BothPasses(r: Request, query: string, invoke: Tool, lower: char -> char)
    returns (first: seq<Call>, second: seq<Call>)
    requires ShowsKeys(r.marshal) && TrimSpace(query) == query != ""
    ensures IsRun(invoke, Attempts(r, query), Attempts(r, Corrected(r.action, query)),
                  RetryDue(lower, r.action, query, first), first, second)
    ensures |first| <= 4 && |second| <= 4
  {
    AttemptsShape(r, query);
    var argAttempts := BuildArgAttempts(r, query);
    first := TryAttempts(invoke, 0, argAttempts);
    second := [];
    PassFails(invoke, 0, argAttempts, first);
    if first[|first| - 1].outcome.Failure? {
      var reason := SyntaxReason(lower, first[|first| - 1].outcome.error);
      if reason.Some? {
        var corrected := Corrected(r.action, query);
        if corrected != "" && corrected != query {
          CorrectedIsTrim(r.action, query);
          AttemptsShape(r, corrected);
          var retryAttempts := BuildArgAttempts(r, corrected);
          second := TryAttempts(invoke, |first|, retryAttempts);
        }
      }
    }
  }

  method RouteFetch(r: Request, rawQuery: string, available: bool, invoke: Tool, lower: char -> char)
    returns (response: Response, first: seq<Call>, second: seq<Call>)
    requires ShowsKeys(r.marshal)
    ensures TrimSpace(rawQuery) == "" ==> response.InputError? && first == [] && second == []
    ensures TrimSpace(rawQuery) != "" && !available ==> response.ToolUnavailable? && first == [] && second == []
    ensures TrimSpace(rawQuery) != "" && available ==>
              var query := TrimSpace(rawQuery);
              && IsRun(invoke, Attempts(r, query), Attempts(r, Corrected(r.action, query)),
                       RetryDue(lower, r.action, query, first), first, second)
              && 1 <= |first + second| <= 8
              && Reports(response,
                         RetryInfo(lower, r.action, query, first, RetryDue(lower, r.action, query, first)),
                         query, first + second)
  {
    var query := TrimSpace(rawQuery);
    if query == "" {
      return InputError, [], [];
    }
    if !available {
      return ToolUnavailable, [], [];
    }
    TrimSpaceIsTrim(rawQuery);
    TrimSpaceIsTrim(query);
    first, second := BothPasses(r, query, invoke, lower);
    response := Respond(r.action, query, invoke, Attempts(r, query), Attempts(r, Corrected(r.action, query)), lower,
                        first, second);
  }

  method Respond(action: Action, query: string, invoke: Tool, ghost xs: seq<Args>, ghost ys: seq<Args>,
                 lower: char -> char, first: seq<Call>, second: seq<Call>)
    returns (response: Response)
    requires IsRun(invoke, xs, ys, RetryDue(lower, action, query, first), first, second)
    ensures Reports(response, RetryInfo(lower, action, query, first, RetryDue(lower, action, query, first)), query,
                    first + second)
  {
    var attempts := first + second;
    RunFails(invoke, xs, ys, RetryDue(lower, action, query, first), first, second);
    var last := attempts[|attempts| - 1];
    var retry := RetryInfo(lower, action, query, first, second != []);
    if last.outcome.Failure? {
      response := ToolError(last.outcome.error, attempts, retry);
    } else {
      response := Ok(last.args, if retry.applied then retry.corrected else query, last.outcome.result, retry);
    }
  }
}
