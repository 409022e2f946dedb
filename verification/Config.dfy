/** `parsePluginConfiguration` of wasmplugin/config.go, from the decoded JSON object on. */
module Config {
  import opened Prelude
  import opened HttpStream

  type Entries<V> = seq<(string, V)>

  /** The members of the configuration object, objects as key/value lists in the order they are written. */
  datatype Fields = Fields(
    directivesMap: Entries<seq<string>>,
    metricLabels: Entries<string>,
    defaultDirectives: Option<string>,
    perAuthorityDirectives: Entries<string>,
    cacheServerCluster: Option<string>,
    cacheServerInstance: Option<string>,
    cacheToken: Option<string>,
    ruleReloadIntervalSeconds: Option<int>,
    failurePolicy: Option<string>,
    rules: Option<seq<string>>)

  datatype Document = Blank | NotJson | Object(f: Fields)

  datatype PluginConfiguration = PluginConfiguration(
    directivesMap: map<string, seq<string>>,
    metricLabels: map<string, string>,
    defaultDirectives: string,
    perAuthorityDirectives: map<string, string>,
    ruleSetCacheServerCluster: string,
    ruleSetCacheServerInstance: string,
    ruleSetCacheServerToken: string,
    ruleSetReloadIntervalSeconds: int,
    failurePolicy: FailurePolicy)

  datatype Parsed = Accepted(config: PluginConfiguration) | InvalidJson | UnknownDefault(name: string) | UnknownForAuthority(authority: string)

  const EMPTY := PluginConfiguration(map[], map[], "", map[], "", "", "", 0, OtherPolicy(""))

  function PolicyOf(s: string): FailurePolicy {
    if s == "allow" then Allow else OtherPolicy(s)
  }

  // ---- which of several entries with one key counts ----

  ghost predicate FirstWins<V(!new)>(entries: Entries<V>, m: map<string, V>) {
    && (forall i :: 0 <= i < |entries| ==> entries[i].0 in m)
    && (forall k :: k in m ==> exists i ::
          0 <= i < |entries| && entries[i] == (k, m[k]) && forall j :: 0 <= j < i ==> entries[j].0 != k)
  }

  ghost predicate LastWins<V(!new)>(entries: Entries<V>, m: map<string, V>) {
    && (forall i :: 0 <= i < |entries| ==> entries[i].0 in m)
    && (forall k :: k in m ==> exists i ::
          0 <= i < |entries| && entries[i] == (k, m[k]) && forall j :: i < j < |entries| ==> entries[j].0 != k)
  }

  /** The rule leaves no choice: it determines the map. */
  lemma FirstWinsDetermines<V(!new)>(entries: Entries<V>, m: map<string, V>, n: map<string, V>)
    requires FirstWins(entries, m) && FirstWins(entries, n)
    ensures m == n
  {
    forall k | k in m ensures k in n && m[k] == n[k] { OnlyFirst(entries, m, n, k); }
    forall k | k in n ensures k in m { OnlyFirst(entries, n, m, k); }
  }

  lemma OnlyFirst<V(!new)>(entries: Entries<V>, m: map<string, V>, n: map<string, V>, k: string)
    requires FirstWins(entries, m) && FirstWins(entries, n) && k in m
    ensures k in n && m[k] == n[k]
  {
    var i :| 0 <= i < |entries| && entries[i] == (k, m[k]) && forall j :: 0 <= j < i ==> entries[j].0 != k;
    var j :| 0 <= j < |entries| && entries[j] == (k, n[k]) && forall l :: 0 <= l < j ==> entries[l].0 != k;
  }

  lemma LastWinsDetermines<V(!new)>(entries: Entries<V>, m: map<string, V>, n: map<string, V>)
    requires LastWins(entries, m) && LastWins(entries, n)
    ensures m == n
  {
    forall k | k in m ensures k in n && m[k] == n[k] { OnlyLast(entries, m, n, k); }
    forall k | k in n ensures k in m { OnlyLast(entries, n, m, k); }
  }

  lemma OnlyLast<V(!new)>(entries: Entries<V>, m: map<string, V>, n: map<string, V>, k: string)
    requires LastWins(entries, m) && LastWins(entries, n) && k in m
    ensures k in n && m[k] == n[k]
  {
    var i :| 0 <= i < |entries| && entries[i] == (k, m[k]) && forall j :: i < j < |entries| ==> entries[j].0 != k;
    var j :| 0 <= j < |entries| && entries[j] == (k, n[k]) && forall l :: j < l < |entries| ==> entries[l].0 != k;
  }

  method CollectFirst<V>(entries: Entries<V>) returns (m: map<string, V>)
    ensures forall i :: 0 <= i < |entries| ==> entries[i].0 in m
    ensures forall k :: k in m ==> exists i ::
              0 <= i < |entries| && entries[i] == (k, m[k]) && forall j :: 0 <= j < i ==> entries[j].0 != k
  {
    m := map[];
    for n := 0 to |entries|
      invariant forall i :: 0 <= i < n ==> entries[i].0 in m
      invariant forall k :: k in m ==> exists i ::
                  0 <= i < n && entries[i] == (k, m[k]) && forall j :: 0 <= j < i ==> entries[j].0 != k
    {
      if entries[n].0 !in m {
        m := m[entries[n].0 := entries[n].1];
      }
    }
  }

  method CollectLast<V>(entries: Entries<V>) returns (m: map<string, V>)
    ensures forall i :: 0 <= i < |entries| ==> entries[i].0 in m
    ensures forall k :: k in m ==> exists i ::
              0 <= i < |entries| && entries[i] == (k, m[k]) && forall j :: i < j < |entries| ==> entries[j].0 != k
  {
    m := map[];
    for n := 0 to |entries|
      invariant forall i :: 0 <= i < n ==> entries[i].0 in m
      invariant forall k :: k in m ==> exists i ::
                  0 <= i < n && entries[i] == (k, m[k]) && forall j :: i < j < n ==> entries[j].0 != k
    {
      m := m[entries[n].0 := entries[n].1];
    }
  }

  // ---- closedness ----

  /** Every name a configuration uses is declared; a default that is not given is the empty name. */
  ghost predicate Closed(c: PluginConfiguration) {
    && (c.defaultDirectives == "" || c.defaultDirectives in c.directivesMap)
    && (forall a :: a in c.perAuthorityDirectives ==> c.perAuthorityDirectives[a] in c.directivesMap)
  }

  const DEFAULT := "default"
  const FAIL := "fail"

  function OrElse(o: Option<string>, otherwise: string): string {
    if o.Some? then o.value else otherwise
  }

  /** The deprecated `rules` field stands in for the directives only if none are declared. */
  predicate FallsBack(f: Fields) {
    f.directivesMap == [] && f.rules.Some?
  }

  ghost predicate TablesMean(f: Fields, c: PluginConfiguration) {
    && FirstWins(if FallsBack(f) then [("default", f.rules.value)] else f.directivesMap, c.directivesMap)
    && LastWins(f.metricLabels, c.metricLabels)
    && LastWins(f.perAuthorityDirectives, c.perAuthorityDirectives)
    && c.defaultDirectives == if FallsBack(f) then "default" else OrElse(f.defaultDirectives, "")
  }

  predicate SettingsMean(f: Fields, c: PluginConfiguration) {
    && c.ruleSetCacheServerCluster == OrElse(f.cacheServerCluster, "")
    && c.ruleSetCacheServerInstance == OrElse(f.cacheServerInstance, "default")
    && c.ruleSetCacheServerToken == OrElse(f.cacheToken, "")
    && c.ruleSetReloadIntervalSeconds == (if f.ruleReloadIntervalSeconds.Some? then f.ruleReloadIntervalSeconds.value else 30)
    && (c.failurePolicy == Allow <==> f.failurePolicy == Some("allow"))
    && (c.failurePolicy != Allow ==> c.failurePolicy == OtherPolicy(OrElse(f.failurePolicy, "fail")))
  }

  /** What an accepted object means, field by field. */
  ghost predicate Means(f: Fields, c: PluginConfiguration) {
    TablesMean(f, c) && SettingsMean(f, c)
  }

  ghost predicate Declared(f: Fields, name: string) {
    exists i :: 0 <= i < |f.directivesMap| && f.directivesMap[i].0 == name
  }

  /** An authority's last entry names directives that are not declared. */
  ghost predicate Dangling(f: Fields, i: nat) {
    && i < |f.perAuthorityDirectives|
    && (forall j :: i < j < |f.perAuthorityDirectives| ==> f.perAuthorityDirectives[j].0 != f.perAuthorityDirectives[i].0)
    && !Declared(f, f.perAuthorityDirectives[i].1)
  }

  ghost predicate Acceptable(f: Fields) {
    && (f.defaultDirectives.Some? ==> Declared(f, f.defaultDirectives.value))
    && forall i :: !Dangling(f, i)
  }

  method CheckAuthorities(directives: map<string, seq<string>>, authorities: map<string, string>) returns (bad: Option<string>)
    ensures bad.Some? ==> bad.value in authorities && authorities[bad.value] !in directives
    ensures bad.None? ==> forall a :: a in authorities ==> authorities[a] in directives
  {
    var unchecked := authorities.Keys;
    while unchecked != {}
      invariant unchecked <= authorities.Keys
      invariant forall a :: a in authorities && a !in unchecked ==> authorities[a] in directives
      decreases |unchecked|
    {
      var authority :| authority in unchecked;
      if authorities[authority] !in directives {
        return Some(authority);
      }
      unchecked := unchecked - {authority};
    }
    return None;
  }

  /** The settings that are plain values; a missing one gets its default. */
  method ReadSettings(f: Fields, c: PluginConfiguration) returns (config: PluginConfiguration)
    ensures SettingsMean(f, config)
    ensures config.directivesMap == c.directivesMap && config.metricLabels == c.metricLabels
    ensures config.defaultDirectives == c.defaultDirectives && config.perAuthorityDirectives == c.perAuthorityDirectives
  {
    var cluster, instance, token, interval, policy := "", DEFAULT, "", 30, PolicyOf(FAIL);
    if f.cacheServerCluster.Some? {
      cluster := f.cacheServerCluster.value;
    }
    if f.cacheServerInstance.Some? {
      instance := f.cacheServerInstance.value;
    }
    if f.cacheToken.Some? {
      token := f.cacheToken.value;
    }
    if f.ruleReloadIntervalSeconds.Some? {
      interval := f.ruleReloadIntervalSeconds.value;
    }
    if f.failurePolicy.Some? {
      policy := PolicyOf(f.failurePolicy.value);
    }
    config := c.(ruleSetCacheServerCluster := cluster, ruleSetCacheServerInstance := instance, ruleSetCacheServerToken := token,
                 ruleSetReloadIntervalSeconds := interval, failurePolicy := policy);
  }

  /** The name of the default directives, unless it is given but not declared. */
  method ReadDefault(f: Fields, directives: map<string, seq<string>>) returns (name: Option<string>)
    requires FirstWins(f.directivesMap, directives)
    ensures name.None? <==> f.defaultDirectives.Some? && !Declared(f, f.defaultDirectives.value)
    ensures name.Some? ==> name.value == OrElse(f.defaultDirectives, "") && (name.value == "" || name.value in directives)
  {
    if f.defaultDirectives.Some? {
      DeclaredIff(f, directives, f.defaultDirectives.value);
      if f.defaultDirectives.value !in directives {
        return None;
      }
      return f.defaultDirectives;
    }
    return Some("");
  }

  /** The authorities' directives, unless a name among them is not declared. */
  method ReadAuthorities(f: Fields, directives: map<string, seq<string>>) returns (bad: Option<string>, m: map<string, string>)
    requires FirstWins(f.directivesMap, directives)
    ensures bad.None? <==> forall i :: !Dangling(f, i)
    ensures bad.None? ==> LastWins(f.perAuthorityDirectives, m) && forall a :: a in m ==> m[a] in directives
  {
    m := CollectLast(f.perAuthorityDirectives);
    bad := CheckAuthorities(directives, m);
    if bad.Some? {
      DanglingFound(f, directives, m, bad.value);
    } else {
      NothingDangles(f, directives, m);
    }
  }

  /** The tables of a configuration, or the name that is used without being declared. */
  method ReadTables(f: Fields) returns (r: Parsed)
    ensures r.Accepted? <==> Acceptable(f)
    ensures !r.InvalidJson?
    ensures r.Accepted? ==>
              && Closed(r.config) && FirstWins(f.directivesMap, r.config.directivesMap)
              && LastWins(f.metricLabels, r.config.metricLabels)
              && LastWins(f.perAuthorityDirectives, r.config.perAuthorityDirectives)
              && r.config.defaultDirectives == OrElse(f.defaultDirectives, "")
  {
    var directives := CollectFirst(f.directivesMap);
    var labels := CollectLast(f.metricLabels);
    var name := ReadDefault(f, directives);
    if name.None? {
      return UnknownDefault(f.defaultDirectives.value);
    }
    var bad, authorities := ReadAuthorities(f, directives);
    if bad.Some? {
      return UnknownForAuthority(bad.value);
    }
    return Accepted(EMPTY.(directivesMap := directives, metricLabels := labels,
                           defaultDirectives := name.value, perAuthorityDirectives := authorities));
  }

  lemma DeclaredIff(f: Fields, directives: map<string, seq<string>>, name: string)
    requires FirstWins(f.directivesMap, directives)
    ensures Declared(f, name) <==> name in directives
  {
    if name in directives {
      var i :| 0 <= i < |f.directivesMap| && f.directivesMap[i] == (name, directives[name])
            && forall j :: 0 <= j < i ==> f.directivesMap[j].0 != name;
    }
  }

  method ParsePluginConfiguration(doc: Document) returns (r: Parsed)
    ensures r.Accepted? <==> doc.Blank? || (doc.Object? && Acceptable(doc.f))
    ensures r.InvalidJson? <==> doc.NotJson?
    ensures r.Accepted? ==> Closed(r.config)
    ensures r.Accepted? && doc.Blank? ==> r.config == PluginConfiguration(map[], map[], "", map[], "", "", "", 0, OtherPolicy(""))
    ensures r.Accepted? && doc.Object? ==> Means(doc.f, r.config)
  {
    if doc.Blank? {
      return Accepted(EMPTY);
    }
    if doc.NotJson? {
      return InvalidJson;
    }
    r := ReadTables(doc.f);
    if !r.Accepted? {
      return;
    }
    var config := ReadSettings(doc.f, r.config);
    EmptyIff(doc.f.directivesMap, config.directivesMap);
    if |config.directivesMap| == 0 {
      if doc.f.rules.Some? {
        SingleEntry(DEFAULT, doc.f.rules.value);
        config := config.(defaultDirectives := DEFAULT, directivesMap := config.directivesMap[DEFAULT := doc.f.rules.value]);
      }
    }
    return Accepted(config);
  }

  lemma SingleEntry<V(!new)>(key: string, value: V)
    ensures FirstWins([(key, value)], map[key := value])
  {
    assert [(key, value)][0] == (key, value);
  }

  lemma EmptyIff<V(!new)>(entries: Entries<V>, m: map<string, V>)
    requires FirstWins(entries, m)
    ensures m == map[] <==> entries == []
  {
    if entries != [] { assert entries[0].0 in m; }
  }

  lemma DanglingFound(f: Fields, directives: map<string, seq<string>>, authorities: map<string, string>, a: string)
    requires FirstWins(f.directivesMap, directives) && LastWins(f.perAuthorityDirectives, authorities)
    requires a in authorities && authorities[a] !in directives
    ensures exists i :: Dangling(f, i)
  {
    var i :| 0 <= i < |f.perAuthorityDirectives| && f.perAuthorityDirectives[i] == (a, authorities[a])
          && forall j :: i < j < |f.perAuthorityDirectives| ==> f.perAuthorityDirectives[j].0 != a;
    assert Dangling(f, i);
  }

  lemma NothingDangles(f: Fields, directives: map<string, seq<string>>, authorities: map<string, string>)
    requires FirstWins(f.directivesMap, directives) && LastWins(f.perAuthorityDirectives, authorities)
    requires forall a :: a in authorities ==> authorities[a] in directives
    ensures forall i :: !Dangling(f, i)
  {
    forall i | 0 <= i < |f.perAuthorityDirectives| &&
               forall j :: i < j < |f.perAuthorityDirectives| ==> f.perAuthorityDirectives[j].0 != f.perAuthorityDirectives[i].0
      ensures Declared(f, f.perAuthorityDirectives[i].1)
    {
      var a := f.perAuthorityDirectives[i].0;
      var k :| 0 <= k < |f.perAuthorityDirectives| && f.perAuthorityDirectives[k] == (a, authorities[a])
            && forall j :: k < j < |f.perAuthorityDirectives| ==> f.perAuthorityDirectives[j].0 != a;
      assert k == i;
      var d :| 0 <= d < |f.directivesMap| && f.directivesMap[d] == (authorities[a], directives[authorities[a]])
            && forall j :: 0 <= j < d ==> f.directivesMap[j].0 != authorities[a];
    }
  }
}
