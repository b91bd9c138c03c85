/** The allow/deny filter around an MCP client and its double-checked discovery cache:
    internal/mcp/filtered_client.go. */
module Discovery {
  import opened Options
  import opened Text

  datatype Tool = Tool(name: string, description: string)

  // ------------------------------------------------------------------ the name filter

  const SEP := "__"

  /** The part of a tool name after the server prefix, when there is one and it is not blank. */
  function ShortName(name: string): string {
    var i := Index(name, SEP);
    if i + 2 <= |name| && TrimSpace(name[i + 2..]) != "" then name[i + 2..] else name
  }

  /** Whether an entry of the configuration speaks about a tool. */
  predicate Matches(entry: string, name: string) {
    var e := TrimSpace(entry);
    e != "" && e == if Contains(e, SEP) then name else ShortName(name)
  }

  // ------------------------------------------------------------------ what matching means

  /** `name` is some prefix, the separator, and `rest`, the separator being the first one. */
  predicate PrefixedAt(name: string, rest: string, k: nat) {
    && Underscores(name, k) && name[k + 2..] == rest
    && forall j | 0 <= j < k :: !Underscores(name, j)
  }

  predicate Underscores(name: string, k: nat) { k + 2 <= |name| && name[k] == name[k + 1] == '_' }

  lemma SepAt(name: string, k: nat)
    ensures OccursAt(name, SEP, k) <==> Underscores(name, k)
  {
    if OccursAt(name, SEP, k) {
      assert name[k..][..2] == SEP && name[k] == SEP[0] && name[k + 1] == SEP[1];
    }
  }

  lemma SepIndex(name: string, rest: string, k: nat)
    requires PrefixedAt(name, rest, k)
    ensures Index(name, SEP) == k
  {
    IndexIsFirst(name, SEP);
    SepAt(name, k);
    var i := Index(name, SEP);
    assert Contains(name, SEP) by { assert OccursAt(name, SEP, k); }
    SepAt(name, i);
  }

  /** The short name is what follows the first separator, unless that is blank. */
  lemma ShortNameOf(name: string, rest: string, k: nat)
    requires PrefixedAt(name, rest, k)
    ensures ShortName(name) == if TrimSpace(rest) != "" then rest else name
  {
    SepIndex(name, rest, k);
  }

  lemma ShortNameWithout(name: string)
    requires !Contains(name, SEP)
    ensures ShortName(name) == name
  {
    IndexIsFirst(name, SEP);
  }

  /** The short form of a prefixed name. */
  lemma ShortNameOfPrefixed(prefix: string, rest: string)
    requires !Contains(prefix + "_", SEP) && TrimSpace(rest) != ""
    ensures ShortName(prefix + SEP + rest) == rest
  {
    PrefixIsFirst(prefix, rest);
    ShortNameOf(prefix + SEP + rest, rest, |prefix|);
  }

  lemma PrefixIsFirst(prefix: string, rest: string)
    requires !Contains(prefix + "_", SEP)
    ensures PrefixedAt(prefix + SEP + rest, rest, |prefix|)
  {
    var name, p := prefix + SEP + rest, prefix + "_";
    assert name[|prefix|] == name[|prefix| + 1] == '_';
    forall j | 0 <= j < |prefix| ensures !Underscores(name, j) {
      assert name[j] == p[j] && name[j + 1] == p[j + 1];
      SepAt(p, j);
      assert !OccursAt(p, SEP, j);
    }
  }

  /** An entry with the separator means one tool; one without means the tool of that name and, behind any server's
      prefix, every tool with that short name; a blank entry means none. */
  ghost predicate Means(entry: string, name: string) {
    var e := TrimSpace(entry);
    e != "" && (name == e || (!Contains(e, "__") && exists k: nat :: PrefixedAt(name, e, k)))
  }

  lemma MatchesIff(entry: string, name: string)
    ensures Matches(entry, name) <==> Means(entry, name)
  {
    var e := TrimSpace(entry);
    TrimSpaceIsTrim(entry);
    TrimSpaceIsTrim(e);
    if !Contains(e, SEP) {
      if Contains(name, SEP) {
        IndexIsFirst(name, SEP);
        FirstSeparator(name);
        var i := Index(name, SEP);
        ShortNameOf(name, name[i + 2..], i);
        if k: nat :| PrefixedAt(name, e, k) {
          ShortNameOf(name, e, k);
        }
      } else {
        ShortNameWithout(name);
        forall k: nat ensures !PrefixedAt(name, e, k) {
          SepAt(name, k);
          assert k <= |name| ==> !OccursAt(name, SEP, k);
        }
      }
    }
  }

  lemma FirstSeparator(name: string)
    requires Contains(name, SEP)
    ensures var i := Index(name, SEP); i + 2 <= |name| && PrefixedAt(name, name[i + 2..], i)
  {
    IndexIsFirst(name, SEP);
    var i := Index(name, SEP);
    SepAt(name, i);
    forall j | 0 <= j < i ensures !Underscores(name, j) {
      SepAt(name, j);
      assert !OccursAt(name, SEP, j);
    }
  }

  predicate AnyMatches(entries: seq<string>, name: string) {
    exists i | 0 <= i < |entries| :: Matches(entries[i], name)
  }

  predicate AllBlank(entries: seq<string>) {
    forall i | 0 <= i < |entries| :: TrimSpace(entries[i]) == ""
  }

  /** Denial wins; an allowlist without a usable entry allows everything. */
  predicate Allowed(allow: seq<string>, deny: seq<string>, name: string) {
    !AnyMatches(deny, name) && (AllBlank(allow) || AnyMatches(allow, name))
  }

  /** What the two lists permit, entry by entry. */
  ghost predicate Permitted(allow: seq<string>, deny: seq<string>, name: string) {
    && (forall d <- deny :: !Means(d, name))
    && ((forall a <- allow :: TrimSpace(a) == "") || exists a <- allow :: Means(a, name))
  }

  lemma AllowedIsPermitted(allow: seq<string>, deny: seq<string>, name: string)
    ensures Allowed(allow, deny, name) <==> Permitted(allow, deny, name)
  {
    AnyMeans(allow, name);
    AnyMeans(deny, name);
    assert forall a <- allow :: exists i :: 0 <= i < |allow| && allow[i] == a;
  }

  lemma AnyMeans(entries: seq<string>, name: string)
    ensures AnyMatches(entries, name) <==> exists e <- entries :: Means(e, name)
  {
    forall i | 0 <= i < |entries| ensures Matches(entries[i], name) <==> Means(entries[i], name) {
      MatchesIff(entries[i], name);
    }
    if e :| e in entries && Means(e, name) {
      var i :| 0 <= i < |entries| && entries[i] == e;
      assert Matches(entries[i], name);
    }
  }

  /** The trimmed entries that contain the separator, or that do not. */
  function Names(entries: seq<string>, exact: bool): set<string> {
    if entries == [] then {}
    else
      var e := TrimSpace(entries[|entries| - 1]);
      Names(entries[..|entries| - 1], exact) + (if e != "" && Contains(e, SEP) == exact then {e} else {})
  }

  method BuildMatchSets(entries: seq<string>) returns (exact: set<string>, short: set<string>)
    ensures exact == Names(entries, true) && short == Names(entries, false)
  {
    exact, short := {}, {};
    for i := 0 to |entries|
      invariant exact == Names(entries[..i], true) && short == Names(entries[..i], false)
    {
      assert entries[..i + 1][..i] == entries[..i];
      var name := TrimSpace(entries[i]);
      if name == "" {
        continue;
      }
      if Contains(name, SEP) {
        exact := exact + {name};
        continue;
      }
      short := short + {name};
    }
    assert entries[..|entries|] == entries;
  }

  lemma {:induction false} NamesMatch(entries: seq<string>, name: string)
    ensures (name in Names(entries, true) || ShortName(name) in Names(entries, false)) <==> AnyMatches(entries, name)
  {
    if entries == [] {
    } else {
      var n := |entries| - 1;
      NamesMatch(entries[..n], name);
      NamesHaveKind(entries[..n], name, false);
      NamesHaveKind(entries[..n], ShortName(name), true);
      if AnyMatches(entries[..n], name) {
        var i :| 0 <= i < n && Matches(entries[..n][i], name);
        assert Matches(entries[i], name);
      }
      if AnyMatches(entries, name) && !Matches(entries[n], name) {
        var i :| 0 <= i < n && Matches(entries[i], name);
        assert Matches(entries[..n][i], name);
      }
    }
  }

  lemma {:induction false} NamesHaveKind(entries: seq<string>, name: string, exact: bool)
    ensures name in Names(entries, !exact) ==> Contains(name, SEP) == !exact
  {
    if entries == [] {
    } else {
      NamesHaveKind(entries[..|entries| - 1], name, exact);
    }
  }

  lemma {:induction false} NamesEmpty(entries: seq<string>)
    ensures Names(entries, true) + Names(entries, false) == {} <==> AllBlank(entries)
  {
    if entries == [] {
    } else {
      NamesEmpty(entries[..|entries| - 1]);
      assert forall i | 0 <= i < |entries| - 1 :: entries[..|entries| - 1][i] == entries[i];
    }
  }

  /** The in-order filter applied to a discovered list. */
  function Filter(allow: seq<string>, deny: seq<string>, tools: seq<Tool>): seq<Tool> {
    if tools == [] then []
    else
      var n := |tools| - 1;
      Filter(allow, deny, tools[..n]) + (if Allowed(allow, deny, tools[n].name) then [tools[n]] else [])
  }

  class FilteredClient {
    const allow: seq<string>
    const deny: seq<string>
    var allowExact: set<string>
    var allowShort: set<string>
    var denyExact: set<string>
    var denyShort: set<string>
    var hasAllow: bool
    var cachedTools: Option<seq<Tool>>

    constructor (allow: seq<string>, deny: seq<string>)
      ensures Valid() && this.allow == allow && this.deny == deny && cachedTools == None
    {
      this.allow, this.deny := allow, deny;
      cachedTools := None;
      new;
      allowExact, allowShort := BuildMatchSets(allow);
      denyExact, denyShort := BuildMatchSets(deny);
      hasAllow := allowExact != {} || allowShort != {};
      NamesEmpty(allow);
    }

    ghost predicate Valid()
      reads this
    {
      && allowExact == Names(allow, true) && allowShort == Names(allow, false)
      && denyExact == Names(deny, true) && denyShort == Names(deny, false)
      && hasAllow == !AllBlank(allow)
    }

    method IsToolAllowed(name: string) returns (ok: bool)
      requires Valid()
      ensures ok == Allowed(allow, deny, name) == Permitted(allow, deny, name)
    {
      AllowedIsPermitted(allow, deny, name);
      NamesMatch(deny, name);
      NamesMatch(allow, name);
      if name in denyExact || ShortName(name) in denyShort {
        return false;
      }
      if !hasAllow {
        return true;
      }
      return name in allowExact || ShortName(name) in allowShort;
    }

    method FilterTools(tools: seq<Tool>) returns (kept: seq<Tool>)
      requires Valid()
      ensures kept == Filter(allow, deny, tools)
    {
      kept := [];
      for i := 0 to |tools|
        invariant kept == Filter(allow, deny, tools[..i])
      {
        var ok := IsToolAllowed(tools[i].name);
        assert tools[..i + 1][..i] == tools[..i];
        if ok {
          kept := kept + [tools[i]];
        }
      }
      assert tools[..|tools|] == tools;
    }

    /** The last critical section of a discovery: the first list to arrive is kept. */
    method Publish(kept: seq<Tool>) returns (out: seq<Tool>)
      modifies this`cachedTools
      ensures cachedTools == Some(if old(cachedTools).Some? then old(cachedTools).value else kept)
      ensures Some(out) == cachedTools
    {
      if cachedTools.None? {
        cachedTools := Some(kept);
      }
      out := cachedTools.value;
    }

    /** A call reaches the upstream client exactly when its tool passes the filter. */
    method InvokeTool(name: string, upstream: string -> string) returns (result: Option<string>)
      requires Valid()
      ensures result == if Permitted(allow, deny, name) then Some(upstream(name)) else None
    {
      var ok := IsToolAllowed(name);
      result := if ok then Some(upstream(name)) else None;
    }
  }

  /** A server without any configured names is not wrapped at all. */
  method NewFilteredClient(allow: seq<string>, deny: seq<string>) returns (wrapper: Option<FilteredClient>)
    ensures wrapper.None? <==> allow == [] && deny == []
    ensures wrapper.Some? ==>
              var f := wrapper.value;
              fresh(f) && f.Valid() && f.allow == allow && f.deny == deny && f.cachedTools == None
  {
    if |allow| == 0 && |deny| == 0 {
      return None;
    }
    var f := new FilteredClient(allow, deny);
    wrapper := Some(f);
  }

  /** Leaving the wrapper out loses nothing: without configured names it would pass everything on. */
  lemma {:induction false} UnconfiguredFiltersNothing(tools: seq<Tool>)
    ensures Filter([], [], tools) == tools && forall name :: Allowed([], [], name)
  {
    if tools == [] {
    } else {
      UnconfiguredFiltersNothing(tools[..|tools| - 1]);
      assert tools == tools[..|tools| - 1] + [tools[|tools| - 1]];
    }
  }

  lemma {:induction false} FilterKeepsCounts(allow: seq<string>, deny: seq<string>, tools: seq<Tool>, t: Tool)
    ensures multiset(Filter(allow, deny, tools))[t] == if Allowed(allow, deny, t.name) then multiset(tools)[t] else 0
  {
    if tools == [] {
    } else {
      var n := |tools| - 1;
      FilterKeepsCounts(allow, deny, tools[..n], t);
      assert tools == tools[..n] + [tools[n]];
    }
  }

  lemma FilterKeepsExactlyTheAllowed(allow: seq<string>, deny: seq<string>, tools: seq<Tool>, t: Tool)
    ensures t in Filter(allow, deny, tools) <==> t in tools && Allowed(allow, deny, t.name)
  {
    FilterKeepsCounts(allow, deny, tools, t);
    assert t in Filter(allow, deny, tools) <==> t in multiset(Filter(allow, deny, tools));
    assert t in tools <==> t in multiset(tools);
  }

  // ------------------------------------------------------------------ the order of what is kept

  function CountAllowed(allow: seq<string>, deny: seq<string>, tools: seq<Tool>): nat {
    if tools == [] then 0
    else
      var n := |tools| - 1;
      CountAllowed(allow, deny, tools[..n]) + (if Allowed(allow, deny, tools[n].name) then 1 else 0)
  }

  /** Each allowed tool stands behind the allowed ones before it, and nothing else is there. */
  lemma {:induction false} FilterAt(allow: seq<string>, deny: seq<string>, tools: seq<Tool>, i: nat)
    requires i < |tools|
    ensures var kept, p := Filter(allow, deny, tools), CountAllowed(allow, deny, tools[..i]);
            && |kept| == CountAllowed(allow, deny, tools)
            && (Allowed(allow, deny, tools[i].name) ==> p < |kept| && kept[p] == tools[i])
  {
    var n := |tools| - 1;
    FilterLength(allow, deny, tools[..n]);
    if i == n {
    } else {
      FilterAt(allow, deny, tools[..n], i);
      assert tools[..n][..i] == tools[..i];
    }
  }

  lemma {:induction false} FilterLength(allow: seq<string>, deny: seq<string>, tools: seq<Tool>)
    ensures |Filter(allow, deny, tools)| == CountAllowed(allow, deny, tools)
  {
    if tools == [] {
    } else {
      FilterLength(allow, deny, tools[..|tools| - 1]);
    }
  }

  // ------------------------------------------------------------------ concurrent discovery

  /** Where one caller of DiscoverTools stands. The two sections under `mu` are single steps. */
  datatype Phase =
    | MissedOnce
    | HoldsDiscovery
    | MissedTwice
    | Discovered(tools: seq<Tool>)
    | Returned(list: seq<Tool>)
    | Failed

  datatype State = State(
    cached: Option<seq<Tool>>,
    discoverMu: Option<nat>,
    callers: map<nat, Phase>,
    upstream: seq<seq<Tool>>)

  datatype Step =
    | FirstCheck(caller: nat)
    | LockDiscovery(caller: nat)
    | SecondCheck(caller: nat)
    | UpstreamOk(caller: nat, tools: seq<Tool>)
    | UpstreamFails(caller: nat)
    | PublishList(caller: nat)

  predicate At(s: State, c: nat, p: Phase) { c in s.callers && s.callers[c] == p }

  predicate Enabled(s: State, step: Step) {
    match step
    case FirstCheck(c) => c !in s.callers
    case LockDiscovery(c) => At(s, c, MissedOnce) && s.discoverMu == None
    case SecondCheck(c) => At(s, c, HoldsDiscovery)
    case UpstreamOk(c, tools) => At(s, c, MissedTwice)
    case UpstreamFails(c) => At(s, c, MissedTwice)
    case PublishList(c) => c in s.callers && s.callers[c].Discovered?
  }

  function Apply(allow: seq<string>, deny: seq<string>, s: State, step: Step): State
    requires Enabled(s, step)
  {
    match step
    case FirstCheck(c) =>
      s.(callers := s.callers[c := if s.cached.Some? then Returned(s.cached.value) else MissedOnce])
    case LockDiscovery(c) =>
      s.(callers := s.callers[c := HoldsDiscovery], discoverMu := Some(c))
    case SecondCheck(c) =>
      if s.cached.Some?
      then s.(callers := s.callers[c := Returned(s.cached.value)], discoverMu := None)
      else s.(callers := s.callers[c := MissedTwice])
    case UpstreamOk(c, tools) =>
      s.(callers := s.callers[c := Discovered(tools)], upstream := s.upstream + [tools])
    case UpstreamFails(c) =>
      s.(callers := s.callers[c := Failed], discoverMu := None)
    case PublishList(c) =>
      var list := if s.cached.Some? then s.cached.value else Filter(allow, deny, s.callers[c].tools);
      s.(cached := Some(list), callers := s.callers[c := Returned(list)], discoverMu := None)
  }

  ghost predicate Reaches(allow: seq<string>, deny: seq<string>, s: State, steps: seq<Step>)
    decreases |steps|
  {
    if steps == [] then s == State(None, None, map[], [])
    else
      var last := |steps| - 1;
      exists before {:trigger Enabled(before, steps[last])} ::
        Reaches(allow, deny, before, steps[..last]) && Enabled(before, steps[last])
        && s == Apply(allow, deny, before, steps[last])
  }

  predicate InDiscovery(p: Phase) { p.HoldsDiscovery? || p.MissedTwice? || p.Discovered? }

  ghost predicate Inv(allow: seq<string>, deny: seq<string>, s: State) {
    && (forall c <- s.callers :: InDiscovery(s.callers[c]) <==> s.discoverMu == Some(c))
    && (s.discoverMu.Some? ==> s.discoverMu.value in s.callers)
    && |s.upstream| <= 1
    && (s.cached.Some? ==> |s.upstream| == 1 && s.cached.value == Filter(allow, deny, s.upstream[0]))
    && (s.cached.None? && s.upstream != [] ==> s.discoverMu.Some? && s.callers[s.discoverMu.value].Discovered?)
    && (forall c <- s.callers :: s.callers[c].Discovered? ==> s.cached.None? && s.upstream == [s.callers[c].tools])
    && (forall c <- s.callers :: s.callers[c].MissedTwice? ==> s.cached.None?)
    && (forall c <- s.callers :: s.callers[c].Returned? ==> s.cached == Some(s.callers[c].list))
  }

  lemma InvStep(allow: seq<string>, deny: seq<string>, s: State, step: Step)
    requires Inv(allow, deny, s) && Enabled(s, step)
    ensures Inv(allow, deny, Apply(allow, deny, s, step))
  {
  }

  lemma {:induction false} InvReached(allow: seq<string>, deny: seq<string>, s: State, steps: seq<Step>)
    requires Reaches(allow, deny, s, steps)
    ensures Inv(allow, deny, s)
    decreases |steps|
  {
    if steps == [] {
    } else {
      var last := |steps| - 1;
      var before :| Reaches(allow, deny, before, steps[..last]) && Enabled(before, steps[last])
                    && s == Apply(allow, deny, before, steps[last]);
      InvReached(allow, deny, before, steps[..last]);
      InvStep(allow, deny, before, steps[last]);
    }
  }

  /** In any interleaving at most one upstream discovery succeeds, and every caller that returns a list
      returns the in-order filter of that one result, which may be empty. */
  lemma OneDiscovery(allow: seq<string>, deny: seq<string>, s: State, steps: seq<Step>)
    requires Reaches(allow, deny, s, steps)
    ensures |s.upstream| <= 1
    ensures forall c <- s.callers | s.callers[c].Returned? ::
              |s.upstream| == 1 && s.callers[c].list == Filter(allow, deny, s.upstream[0])
    ensures forall a, b | a in s.callers && b in s.callers && InDiscovery(s.callers[a]) && InDiscovery(s.callers[b]) ::
              a == b
  {
    InvReached(allow, deny, s, steps);
  }

  /** What a caller is given is exactly what it may invoke out of what upstream offered; no denied name is listed. */
  lemma ListedIffInvocable(allow: seq<string>, deny: seq<string>, s: State, steps: seq<Step>, c: nat, t: Tool)
    requires Reaches(allow, deny, s, steps) && c in s.callers && s.callers[c].Returned?
    ensures |s.upstream| == 1
    ensures t in s.callers[c].list <==> t in s.upstream[0] && Permitted(allow, deny, t.name)
  {
    AllowedIsPermitted(allow, deny, t.name);
    OneDiscovery(allow, deny, s, steps);
    FilterKeepsExactlyTheAllowed(allow, deny, s.upstream[0], t);
  }

  /** An entry without the separator means every server's tool of that name. */
  lemma ShortEntryMeans(entry: string, prefix: string)
    requires TrimSpace(entry) == entry != "" && !Contains(entry, SEP) && !Contains(prefix + "_", SEP)
    ensures Means(entry, entry) && Means(entry, prefix + "__" + entry)
  {
    PrefixIsFirst(prefix, entry);
  }

  /** A short name in the denylist keeps every server's tool of that name from being listed, in any reached state, and
      from being invoked. */
  lemma DeniedShortName(allow: seq<string>, deny: seq<string>, s: State, steps: seq<Step>, c: nat, t: Tool,
                        entry: string, prefix: string)
    requires Reaches(allow, deny, s, steps) && c in s.callers && s.callers[c].Returned?
    requires entry in deny && TrimSpace(entry) == entry != "" && !Contains(entry, SEP)
    requires t.name == entry || (!Contains(prefix + "_", SEP) && t.name == prefix + "__" + entry)
    ensures t !in s.callers[c].list && !Permitted(allow, deny, t.name)
  {
    if t.name != entry {
      ShortEntryMeans(entry, prefix);
    }
    ListedIffInvocable(allow, deny, s, steps, c, t);
  }

  lemma {:induction false} PublishedStays(allow: seq<string>, deny: seq<string>, s: State, steps: seq<Step>, i: nat)
    requires Reaches(allow, deny, s, steps) && i < |steps| && steps[i].PublishList?
    ensures s.cached.Some?
    decreases |steps|
  {
    var last := |steps| - 1;
    var before :| Reaches(allow, deny, before, steps[..last]) && Enabled(before, steps[last])
                  && s == Apply(allow, deny, before, steps[last]);
    if i == last {
    } else {
      PublishedStays(allow, deny, before, steps[..last], i);
    }
  }

  predicate Served(s: State, c: nat) { c in s.callers && s.callers[c].Returned? }

  lemma ServedStays(allow: seq<string>, deny: seq<string>, s: State, step: Step, c: nat)
    requires Enabled(s, step)
    ensures Served(s, c) ==> Served(Apply(allow, deny, s, step), c) && step.caller != c
    ensures s.cached.Some? && step == FirstCheck(c) ==> Served(Apply(allow, deny, s, step), c)
  {
  }

  /** Whoever asks once a list has been published is given it without waiting for a lock or for upstream. */
  lemma {:induction false} LateCallerIsServed(allow: seq<string>, deny: seq<string>, s: State, steps: seq<Step>,
                                              i: nat, j: nat, c: nat)
    requires Reaches(allow, deny, s, steps) && i < j < |steps|
    requires steps[i].PublishList? && steps[j] == FirstCheck(c)
    ensures Served(s, c) && forall k | j < k < |steps| :: steps[k].caller != c
    decreases |steps|
  {
    var last := |steps| - 1;
    var before :| Reaches(allow, deny, before, steps[..last]) && Enabled(before, steps[last])
                  && s == Apply(allow, deny, before, steps[last]);
    ServedStays(allow, deny, before, steps[last], c);
    if j == last {
      PublishedStays(allow, deny, before, steps[..last], i);
    } else {
      LateCallerIsServed(allow, deny, before, steps[..last], i, j, c);
    }
  }

  /** A failed discovery is forgotten: the lock is free again and the next caller may try. */
  lemma FailureIsNotCached(allow: seq<string>, deny: seq<string>, s: State, steps: seq<Step>)
    requires Reaches(allow, deny, s, steps)
    requires forall c <- s.callers :: s.callers[c].Failed? || s.callers[c].MissedOnce?
    ensures s.cached == None && s.discoverMu == None && s.upstream == []
  {
    CachedWasReturned(allow, deny, s, steps);
    InvReached(allow, deny, s, steps);
  }

  /** No deadlock: while some caller has neither returned nor failed, some caller inside can take a step. */
  lemma SomeCallerCanMove(allow: seq<string>, deny: seq<string>, s: State, steps: seq<Step>, c: nat)
    requires Reaches(allow, deny, s, steps) && c in s.callers && !s.callers[c].Returned? && !s.callers[c].Failed?
    ensures exists step :: Enabled(s, step) && step.caller in s.callers
  {
    InvReached(allow, deny, s, steps);
    var d := if s.discoverMu.Some? then s.discoverMu.value else c;
    match s.callers[d]
    case MissedOnce => assert Enabled(s, LockDiscovery(d));
    case HoldsDiscovery => assert Enabled(s, SecondCheck(d));
    case MissedTwice => assert Enabled(s, UpstreamFails(d));
    case Discovered(_) => assert Enabled(s, PublishList(d));
  }

  lemma {:induction false} CachedWasReturned(allow: seq<string>, deny: seq<string>, s: State, steps: seq<Step>)
    requires Reaches(allow, deny, s, steps)
    ensures s.cached.Some? ==> exists c <- s.callers :: s.callers[c].Returned?
    decreases |steps|
  {
    if steps == [] {
    } else {
      var last := |steps| - 1;
      var before :| Reaches(allow, deny, before, steps[..last]) && Enabled(before, steps[last])
                    && s == Apply(allow, deny, before, steps[last]);
      CachedWasReturned(allow, deny, before, steps[..last]);
      assert steps[last].caller in s.callers;
      if before.cached.Some? {
        var c :| c in before.callers && before.callers[c].Returned?;
        assert c in s.callers && s.callers[c].Returned?;
      }
    }
  }
}
