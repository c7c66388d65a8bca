/** Reconciling a publication's live tables with the configured ones:
    mergeDesiredPublicationTables in pq/publication/row_filter.go. */
module Publication {
  import opened Basics

  /** Keys are schema and name joined with a dot. columns is None for all columns. */
  datatype Table = Table(schema: string, name: string, columns: Option<seq<string>>, filter: string)
  {
    function Key(): string { schema + "." + name }
  }

  type Tables = seq<Table>

  const CLEAR: string := "-"

  function Keys(ts: Tables): set<string> { set i | 0 <= i < |ts| :: ts[i].Key() }

  ghost predicate DistinctKeys(ts: Tables) { forall i, j | 0 <= i < j < |ts| :: ts[i].Key() != ts[j].Key() }

  /** The configured table of a key; the last one wins. */
  function Lookup(ts: Tables, key: string): Option<Table> {
    if ts == [] then None
    else if ts[|ts| - 1].Key() == key then Some(ts[|ts| - 1])
    else Lookup(ts[..|ts| - 1], key)
  }

  /** A live filter under a configured one: "" leaves it, the sentinel removes it. */
  function Resolved(live: string, configured: string): string {
    if configured == "" then live else if configured == CLEAR then "" else configured
  }

  function Added(t: Table): Table { t.(filter := Resolved("", t.filter)) }

  /** What becomes of one live table. */
  function KeptAs(t: Table, configured: Tables, prune: bool): Tables {
    match Lookup(configured, t.Key())
    case None => if prune then [] else [t]
    case Some(c) => [t.(filter := Resolved(t.filter, c.filter))]
  }

  function Kept(actual: Tables, configured: Tables, prune: bool): Tables {
    if actual == [] then []
    else Kept(actual[..|actual| - 1], configured, prune) + KeptAs(actual[|actual| - 1], configured, prune)
  }

  function New(live: set<string>, configured: Tables): Tables {
    if configured == [] then []
    else
      var t := configured[|configured| - 1];
      New(live, configured[..|configured| - 1]) + if t.Key() in live then [] else [Added(t)]
  }

  function Desired(actual: Tables, configured: Tables, prune: bool): Tables {
    Kept(actual, configured, prune) + New(Keys(actual), configured)
  }

  lemma {:induction false} MapIsLookup(m: map<string, Table>, ts: Tables, n: nat)
    requires n < |ts|
    requires forall key ::
      (key in m <==> Lookup(ts[..n], key).Some?) && (key in m ==> Lookup(ts[..n], key) == Some(m[key]))
    ensures var m' := m[ts[n].Key() := ts[n]];
      forall key ::
        (key in m' <==> Lookup(ts[..n + 1], key).Some?) && (key in m' ==> Lookup(ts[..n + 1], key) == Some(m'[key]))
  {
    assert ts[..n + 1][..n] == ts[..n];
  }

  lemma KeptStep(actual: Tables, configured: Tables, prune: bool, n: nat)
    requires n < |actual|
    ensures Kept(actual[..n + 1], configured, prune) == Kept(actual[..n], configured, prune)
        + KeptAs(actual[n], configured, prune)
    ensures Keys(actual[..n + 1]) == Keys(actual[..n]) + {actual[n].Key()}
  {
    assert actual[..n + 1][..n] == actual[..n];
    var k, k' := Keys(actual[..n]), Keys(actual[..n + 1]);
    forall x ensures x in k' <==> x in k + {actual[n].Key()} {
      if x in k' {
        var i :| 0 <= i < n + 1 && actual[..n + 1][i].Key() == x;
        if i < n { assert actual[..n][i].Key() == x; }
      }
      if x in k {
        var i :| 0 <= i < n && actual[..n][i].Key() == x;
        assert actual[..n + 1][i].Key() == x;
      }
      assert actual[..n + 1][n].Key() == actual[n].Key();
    }
  }

  ghost predicate MapOf(m: map<string, Table>, ts: Tables) {
    forall key :: (key in m <==> Lookup(ts, key).Some?) && (key in m ==> Lookup(ts, key) == Some(m[key]))
  }

  method BuildMap(configured: Tables) returns (m: map<string, Table>)
    ensures MapOf(m, configured)
  {
    m := map[];
    assert configured[..0] == [];
    for n := 0 to |configured|
      invariant MapOf(m, configured[..n])
    {
      MapIsLookup(m, configured, n);
      m := m[configured[n].Key() := configured[n]];
    }
    assert configured[..|configured|] == configured;
  }

  method ResolveFilter(live: string, configured: string) returns (resolved: string)
    ensures resolved == Resolved(live, configured)
  {
    resolved := live;
    if configured == "" {
    } else if configured == CLEAR {
      resolved := "";
    } else {
      resolved := configured;
    }
  }

  /** One pass over the live tables: changed says whether any was dropped or altered. */
  method MergeLive(actual: Tables, configured: Tables, configuredMap: map<string, Table>, prune: bool)
    returns (desired: Tables, changed: bool, actualKeys: set<string>)
    requires MapOf(configuredMap, configured)
    ensures desired == Kept(actual, configured, prune) && actualKeys == Keys(actual)
    ensures |desired| <= |actual| && (changed <==> desired != actual)
  {
    hide MapOf, Keys, Lookup, Kept;
    actualKeys, desired, changed := {}, [], false;
    assert actual[..0] == [];
    NothingKept(actual[..0], configured, prune);
    for n := 0 to |actual|
      invariant actualKeys == Keys(actual[..n])
      invariant desired == Kept(actual[..n], configured, prune)
      invariant |desired| <= n && (changed <==> desired != actual[..n])
    {
      var t := actual[n];
      KeptStep(actual, configured, prune, n);
      InMap(configuredMap, configured, t.Key());
      actualKeys := actualKeys + {t.Key()};
      assert actual[..n + 1] == actual[..n] + [t];
      if t.Key() !in configuredMap {
        if prune {
          changed := true;
        } else {
          desired := desired + [t];
        }
        continue;
      }
      var resolved := ResolveFilter(t.filter, configuredMap[t.Key()].filter);
      if resolved != t.filter {
        changed := true;
      }
      desired := desired + [t.(filter := resolved)];
    }
    assert actual[..|actual|] == actual;
  }

  lemma InMap(m: map<string, Table>, ts: Tables, key: string)
    requires MapOf(m, ts)
    ensures key in m <==> Lookup(ts, key).Some?
    ensures key in m ==> Lookup(ts, key) == Some(m[key])
  {
  }

  lemma NothingKept(none: Tables, configured: Tables, prune: bool)
    requires none == []
    ensures Kept(none, configured, prune) == [] && Keys(none) == {}
  {
  }

  /** The source's loops; changed says exactly whether the result differs from the
      live list. */
  method MergeDesired(actual: Tables, configured: Tables, prune: bool) returns (desired: Tables, changed: bool)
    ensures desired == Desired(actual, configured, prune)
    ensures changed <==> desired != actual
  {
    hide MapOf, Keys, Lookup, Kept;
    var configuredMap := BuildMap(configured);
    var actualKeys;
    desired, changed, actualKeys := MergeLive(actual, configured, configuredMap, prune);
    ghost var kept, keptChanged := desired, changed;
    assert configured[..0] == [];
    for n := 0 to |configured|
      invariant desired == kept + New(actualKeys, configured[..n])
      invariant changed <==> keptChanged || New(actualKeys, configured[..n]) != []
    {
      assert configured[..n + 1][..n] == configured[..n];
      var t := configured[n];
      if t.Key() in actualKeys {
        continue;
      }
      if t.filter == CLEAR {
        t := t.(filter := "");
      }
      desired := desired + [t];
      changed := true;
    }
    assert configured[..|configured|] == configured;
    if New(actualKeys, configured) != [] {
      NewIsNew(actual, configured, kept);
    }
  }

  lemma {:induction false} NewKeys(live: set<string>, configured: Tables, t: Table)
    requires t in New(live, configured)
    ensures t.Key() !in live
  {
    if configured != [] && t in New(live, configured[..|configured| - 1]) {
      NewKeys(live, configured[..|configured| - 1], t);
    }
  }

  lemma NewIsNew(actual: Tables, configured: Tables, kept: Tables)
    requires New(Keys(actual), configured) != []
    ensures kept + New(Keys(actual), configured) != actual
  {
    var added := New(Keys(actual), configured);
    NewKeys(Keys(actual), configured, added[0]);
    assert (kept + added)[|kept|] == added[0];
    assert forall i | 0 <= i < |actual| :: actual[i].Key() in Keys(actual);
  }

  // ---- what the result is ----

  lemma {:induction false} LookupKey(ts: Tables, key: string)
    ensures Lookup(ts, key).Some? <==> key in Keys(ts)
    ensures Lookup(ts, key).Some? ==> Lookup(ts, key).value.Key() == key && Lookup(ts, key).value in ts
  {
    if ts != [] {
      var n := |ts| - 1;
      assert ts[..n + 1] == ts;
      KeptStep(ts, [], false, n);
      LookupKey(ts[..n], key);
    }
  }

  lemma KeysOfConcat(a: Tables, b: Tables)
    ensures Keys(a + b) == Keys(a) + Keys(b)
  {
    forall x ensures x in Keys(a + b) <==> x in Keys(a) || x in Keys(b) {
      if x in Keys(a) {
        var i :| 0 <= i < |a| && a[i].Key() == x;
        assert (a + b)[i].Key() == x;
      }
      if x in Keys(b) {
        var i :| 0 <= i < |b| && b[i].Key() == x;
        assert (a + b)[|a| + i].Key() == x;
      }
    }
  }

  lemma {:induction false} KeptKeys(actual: Tables, configured: Tables, prune: bool)
    ensures Keys(Kept(actual, configured, prune)) == if prune then Keys(actual) * Keys(configured) else Keys(actual)
  {
    if actual != [] {
      var n := |actual| - 1;
      var t := actual[n];
      assert actual[..n + 1] == actual;
      KeptStep(actual, configured, prune, n);
      KeptKeys(actual[..n], configured, prune);
      LookupKey(configured, t.Key());
      KeysOfConcat(Kept(actual[..n], configured, prune), KeptAs(t, configured, prune));
      OneKey(t, configured, prune);
    }
  }

  lemma OneKey(t: Table, configured: Tables, prune: bool)
    ensures Keys(KeptAs(t, configured, prune)) == if prune && Lookup(configured, t.Key()).None? then {} else {t.Key()}
  {
    var ts := KeptAs(t, configured, prune);
    if ts != [] { assert ts[0].Key() == t.Key(); }
  }

  lemma {:induction false} NewHasKeys(live: set<string>, configured: Tables)
    ensures Keys(New(live, configured)) == Keys(configured) - live
  {
    if configured != [] {
      var n := |configured| - 1;
      var t := configured[n];
      NewHasKeys(live, configured[..n]);
      assert configured[..n + 1] == configured;
      KeptStep(configured, [], false, n);
      if t.Key() in live {
        assert New(live, configured) == New(live, configured[..n]);
      } else {
        KeysOfConcat(New(live, configured[..n]), [Added(t)]);
        assert [Added(t)][0].Key() == t.Key();
        assert Keys([Added(t)]) == {t.Key()};
      }
    }
  }

  /** The result has the live and the configured tables, or when pruning exactly the
      configured ones. */
  lemma DesiredKeys(actual: Tables, configured: Tables, prune: bool)
    ensures Keys(Desired(actual, configured, prune))
         == if prune then Keys(configured) else Keys(actual) + Keys(configured)
  {
    hide Keys, Kept, New;
    KeptKeys(actual, configured, prune);
    NewHasKeys(Keys(actual), configured);
    KeysOfConcat(Kept(actual, configured, prune), New(Keys(actual), configured));
  }

  /** A live table the configuration does not mention is carried over as it is. */
  lemma {:induction false} UnmentionedUnchanged(actual: Tables, configured: Tables, t: Table)
    requires t in actual && t.Key() !in Keys(configured)
    ensures t in Desired(actual, configured, false)
  {
    KeptUnmentioned(actual, configured, t);
  }

  lemma {:induction false} KeptUnmentioned(actual: Tables, configured: Tables, t: Table)
    requires t in actual && t.Key() !in Keys(configured)
    ensures t in Kept(actual, configured, false)
  {
    LookupKey(configured, t.Key());
    if t in actual[..|actual| - 1] {
      KeptUnmentioned(actual[..|actual| - 1], configured, t);
    }
  }

  // ---- table by table ----

  /** Of several configured entries for one table the last one counts. */
  lemma {:induction false} LookupIsLast(ts: Tables, i: nat)
    requires i < |ts| && forall j | i < j < |ts| :: ts[j].Key() != ts[i].Key()
    ensures Lookup(ts, ts[i].Key()) == Some(ts[i])
    decreases |ts|
  {
    if i < |ts| - 1 {
      var init := ts[..|ts| - 1];
      assert ts[|ts| - 1].Key() != ts[i].Key();
      LookupIsLast(init, i);
    }
  }

  /** Two tables have one key exactly when schema and name agree, as long as no schema
      name has a dot. */
  lemma SameKeyIff(a: Table, b: Table)
    requires '.' !in a.schema && '.' !in b.schema
    ensures a.Key() == b.Key() <==> a.schema == b.schema && a.name == b.name
  {
    var x, y := a.Key(), b.Key();
    FirstDot(a);
    FirstDot(b);
    if x == y {
      assert |a.schema| == |b.schema|;
      assert x[..|a.schema|] == a.schema && y[..|b.schema|] == b.schema;
      assert x[|a.schema| + 1..] == a.name && y[|b.schema| + 1..] == b.name;
    }
  }

  lemma FirstDot(t: Table)
    requires '.' !in t.schema
    ensures |t.schema| < |t.Key()| && t.Key()[|t.schema|] == '.'
    ensures forall k | 0 <= k < |t.schema| :: t.Key()[k] != '.'
  {
    assert forall k | 0 <= k < |t.schema| :: t.Key()[k] == t.schema[k];
  }

  lemma {:induction false} KeptAt(actual: Tables, configured: Tables, prune: bool, n: nat)
    requires n < |actual| && (prune ==> actual[n].Key() in Keys(configured))
    ensures var k := |Kept(actual[..n], configured, prune)|;
            && k <= n && (!prune ==> k == n)
            && k < |Kept(actual, configured, prune)|
            && [Kept(actual, configured, prune)[k]] == KeptAs(actual[n], configured, prune)
    decreases |actual|
  {
    hide Keys, Lookup;
    var init := actual[..|actual| - 1];
    LookupKey(configured, actual[n].Key());
    if n < |init| {
      assert init[..n] == actual[..n];
      KeptAt(init, configured, prune, n);
    } else {
      KeptShorter(init, configured, prune);
    }
  }

  lemma {:induction false} KeptShorter(actual: Tables, configured: Tables, prune: bool)
    ensures |Kept(actual, configured, prune)| <= |actual|
    ensures !prune ==> |Kept(actual, configured, prune)| == |actual|
  {
    hide Lookup;
    if actual != [] { KeptShorter(actual[..|actual| - 1], configured, prune); }
  }

  /** What the configured filter of a live table means: an empty one leaves the table as it
      is, "-" clears its filter, any other replaces it; schema, name and live columns stay,
      and so does its place (when pruning, its place among the tables that stay). */
  lemma LiveTableBecomes(actual: Tables, configured: Tables, prune: bool, n: nat)
    requires n < |actual| && actual[n].Key() in Keys(configured)
    ensures Lookup(configured, actual[n].Key()).Some?
    ensures var t, want := actual[n], Lookup(configured, actual[n].Key()).value.filter;
            var k, desired := |Kept(actual[..n], configured, prune)|, Desired(actual, configured, prune);
            && k < |desired| && (!prune ==> k == n)
            && desired[k].schema == t.schema && desired[k].name == t.name && desired[k].columns == t.columns
            && (want == "" ==> desired[k] == t)
            && (want == "-" ==> desired[k].filter == "")
            && (want != "" && want != "-" ==> desired[k].filter == want)
  {
    hide Keys, Kept, New;
    LookupKey(configured, actual[n].Key());
    KeptAt(actual, configured, prune, n);
  }

  lemma {:induction false} NewAt(live: set<string>, configured: Tables, n: nat)
    requires n < |configured| && configured[n].Key() !in live
    ensures var k := |New(live, configured[..n])|;
            k < |New(live, configured)| && New(live, configured)[k] == Added(configured[n])
    decreases |configured|
  {
    var init := configured[..|configured| - 1];
    if n < |init| {
      assert init[..n] == configured[..n];
      NewAt(live, init, n);
    }
  }

  /** A configured table that is not live is added after the live ones, in the order of the
      configuration, with its columns; an empty filter and "-" both give it none. */
  lemma NewTableBecomes(actual: Tables, configured: Tables, prune: bool, n: nat)
    requires n < |configured| && configured[n].Key() !in Keys(actual)
    ensures var c, desired := configured[n], Desired(actual, configured, prune);
            var k := |Kept(actual, configured, prune)| + |New(Keys(actual), configured[..n])|;
            && k < |desired|
            && desired[k].schema == c.schema && desired[k].name == c.name && desired[k].columns == c.columns
            && (desired[k].filter == "" <==> c.filter == "" || c.filter == "-")
            && (c.filter != "" && c.filter != "-" ==> desired[k].filter == c.filter)
  {
    hide Keys, Kept, New;
    NewAt(Keys(actual), configured, n);
  }

  // ---- a second merge ----

  /** The configuration has nothing more to say about this table. */
  predicate Agreed(t: Table, configured: Tables, prune: bool) { KeptAs(t, configured, prune) == [t] }

  lemma {:induction false} AllAgreedKept(ts: Tables, configured: Tables, prune: bool)
    requires forall t | t in ts :: Agreed(t, configured, prune)
    ensures Kept(ts, configured, prune) == ts
  {
    hide KeptAs;
    if ts != [] {
      var init, t := ts[..|ts| - 1], ts[|ts| - 1];
      assert ts == init + [t];
      assert t in ts && forall x | x in init :: x in ts;
      AllAgreedKept(init, configured, prune);
      assert KeptAs(t, configured, prune) == [t];
    }
  }

  lemma KeptAgrees(t: Table, configured: Tables, prune: bool, k: Table)
    requires k in KeptAs(t, configured, prune)
    ensures Agreed(k, configured, prune)
  {
    assert k.Key() == t.Key();
  }

  lemma {:induction false} KeptAgreed(actual: Tables, configured: Tables, prune: bool, k: Table)
    requires k in Kept(actual, configured, prune)
    ensures Agreed(k, configured, prune)
  {
    var n := |actual| - 1;
    if k in KeptAs(actual[n], configured, prune) {
      KeptAgrees(actual[n], configured, prune, k);
    } else {
      KeptAgreed(actual[..n], configured, prune, k);
    }
  }

  lemma {:induction false} UniqueLookup(ts: Tables, t: Table)
    requires DistinctKeys(ts) && t in ts
    ensures Lookup(ts, t.Key()) == Some(t)
  {
    var n := |ts| - 1;
    if t != ts[n] {
      assert t in ts[..n];
      var i :| 0 <= i < n && ts[i] == t;
      UniqueLookup(ts[..n], t);
    }
  }

  lemma NoKeys(ts: Tables)
    requires ts != []
    ensures Keys(ts) != {}
  {
    assert ts[0].Key() in Keys(ts);
  }

  lemma {:induction false} NothingNew(live: set<string>, configured: Tables)
    requires Keys(configured) <= live
    ensures New(live, configured) == []
  {
    hide Keys;
    NewHasKeys(live, configured);
    if New(live, configured) != [] { NoKeys(New(live, configured)); }
  }

  /** Every table added from the configuration already has the filter the last
      entry for its key would give it. */
  ghost predicate DuplicatesAgree(actual: Tables, configured: Tables) {
    forall c | c in configured && c.Key() !in Keys(actual) :: Agrees(c, configured)
  }

  predicate Agrees(c: Table, configured: Tables) {
    var last := Lookup(configured, c.Key());
    last.Some? && Resolved(Added(c).filter, last.value.filter) == Added(c).filter
  }

  lemma DistinctAgree(actual: Tables, configured: Tables)
    requires DistinctKeys(configured)
    ensures DuplicatesAgree(actual, configured)
  {
    hide Keys;
    forall c | c in configured && c.Key() !in Keys(actual) ensures Agrees(c, configured) {
      UniqueLookup(configured, c);
    }
  }

  lemma KeysAgain(actual: Tables, configured: Tables, prune: bool)
    ensures var once := Desired(actual, configured, prune);
            New(Keys(once), configured) == [] && Desired(once, configured, prune) == Kept(once, configured, prune)
  {
    hide Kept, New, Keys;
    var once := Desired(actual, configured, prune);
    DesiredKeys(actual, configured, prune);
    NothingNew(Keys(once), configured);
  }

  /** A table that survives a pass is one element of it. */
  lemma OneKept(t: Table, configured: Tables, prune: bool)
    requires prune ==> t.Key() in Keys(configured)
    ensures |KeptAs(t, configured, prune)| == 1
  {
    LookupKey(configured, t.Key());
  }

  lemma {:induction false} KeptIsSame(ts: Tables, configured: Tables, prune: bool)
    requires forall t | t in ts :: |KeptAs(t, configured, prune)| == 1
    ensures |Kept(ts, configured, prune)| == |ts|
    ensures Kept(ts, configured, prune) == ts ==> forall t | t in ts :: Agreed(t, configured, prune)
  {
    hide KeptAs;
    if ts != [] {
      var init, t := ts[..|ts| - 1], ts[|ts| - 1];
      assert ts == init + [t];
      assert t in ts && forall x | x in init :: x in ts;
      KeptIsSame(init, configured, prune);
      var k := Kept(ts, configured, prune);
      assert k == Kept(init, configured, prune) + KeptAs(t, configured, prune);
      if k == ts {
        assert k[..|init|] == init && k[|init|..] == [t];
        assert Agreed(t, configured, prune);
      }
    }
  }

  lemma AddedAgreedIff(c: Table, configured: Tables, prune: bool)
    requires c in configured
    ensures Agreed(Added(c), configured, prune) <==> Agrees(c, configured)
  {
    assert Added(c).Key() == c.Key();
    InKeys(configured, c);
    LookupKey(configured, c.Key());
  }

  lemma InKeys(ts: Tables, t: Table)
    requires t in ts
    ensures t.Key() in Keys(ts)
  {
    var i :| 0 <= i < |ts| && ts[i] == t;
    assert ts[i].Key() in Keys(ts);
  }

  lemma {:induction false} NewIsAdded(live: set<string>, configured: Tables, k: Table)
    ensures k in New(live, configured) <==> exists c :: c in configured && c.Key() !in live && k == Added(c)
  {
    if configured != [] {
      var init, c := configured[..|configured| - 1], configured[|configured| - 1];
      assert configured == init + [c];
      NewIsAdded(live, init, k);
    }
  }

  /** Merging the result again with the same configuration changes nothing exactly when
      the entries that add one table agree on its filter; with distinct keys always. */
  lemma MergeIsFixpointIff(actual: Tables, configured: Tables, prune: bool)
    ensures var once := Desired(actual, configured, prune);
            Desired(once, configured, prune) == once <==> DuplicatesAgree(actual, configured)
    ensures DistinctKeys(configured) ==> DuplicatesAgree(actual, configured)
  {
    hide Kept, New, Agreed, Agrees, Keys, Lookup, KeptAs;
    var once := Desired(actual, configured, prune);
    KeysAgain(actual, configured, prune);
    DesiredKeys(actual, configured, prune);
    forall t | t in once ensures |KeptAs(t, configured, prune)| == 1 {
      InKeys(once, t);
      OneKept(t, configured, prune);
    }
    if Kept(once, configured, prune) == once {
      KeptIsSame(once, configured, prune);
      forall c | c in configured && c.Key() !in Keys(actual) ensures Agrees(c, configured) {
        NewIsAdded(Keys(actual), configured, Added(c));
        assert Added(c) in once;
        AddedAgreedIff(c, configured, prune);
      }
    }
    if DistinctKeys(configured) { DistinctAgree(actual, configured); }
    if DuplicatesAgree(actual, configured) {
      forall t | t in once ensures Agreed(t, configured, prune) {
        if t in Kept(actual, configured, prune) {
          KeptAgreed(actual, configured, prune, t);
        } else {
          NewIsAdded(Keys(actual), configured, t);
          var c :| c in configured && c.Key() !in Keys(actual) && t == Added(c);
          AddedAgreedIff(c, configured, prune);
        }
      }
      AllAgreedKept(once, configured, prune);
    }
  }

  /** Whatever the configuration, a second merge settles it: a third changes nothing. */
  lemma SecondMergeSettles(actual: Tables, configured: Tables, prune: bool)
    ensures var twice := Desired(Desired(actual, configured, prune), configured, prune);
            Desired(twice, configured, prune) == twice
  {
    hide Kept, New, Agreed, Keys, KeptAs;
    var once := Desired(actual, configured, prune);
    var twice := Desired(once, configured, prune);
    KeysAgain(actual, configured, prune);
    KeysAgain(once, configured, prune);
    forall t | t in twice ensures Agreed(t, configured, prune) { KeptAgreed(once, configured, prune, t); }
    AllAgreedKept(twice, configured, prune);
  }

  /** A table configured twice with two filters costs one extra change. */
  lemma DuplicatesAreNotAFixpoint()
    ensures var t := Table("s", "t", None, "a");
            var configured := [t, t.(filter := "b")];
            var once := Desired([], configured, false);
            Desired(once, configured, false) != once
  {
    var t := Table("s", "t", None, "a");
    var u := t.(filter := "b");
    var configured := [t, u];
    assert Lookup(configured, t.Key()) == Some(u);
    assert t == configured[0] && !Agrees(t, configured);
    MergeIsFixpointIff([], configured, false);
  }
}
