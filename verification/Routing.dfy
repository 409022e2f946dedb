/** How a static start turns a configuration into the routing table, and what the table must answer. */
module Routing {
  import opened Prelude
  import opened Wafs
  import opened Config

  /** `strings.Join(directives, "\n")` */
  function Join(lines: seq<string>): string {
    if |lines| == 0 then "" else if |lines| == 1 then lines[0] else lines[0] + "\n" + Join(lines[1..])
  }

  function WafOf(directives: seq<string>): Waf {
    Waf(Join(directives), map[])
  }

  // ---- the simple form: authority, then directives name, then engine ----

  /** The engine an authority should get, written from the configuration alone. */
  function Route(c: PluginConfiguration, authority: string): Option<Waf> {
    var name := if authority in c.perAuthorityDirectives then c.perAuthorityDirectives[authority] else c.defaultDirectives;
    if name in c.directivesMap then Some(WafOf(c.directivesMap[name])) else None
  }

  predicate UsesDefault(c: PluginConfiguration, authority: string) {
    authority in c.perAuthorityDirectives ==> c.perAuthorityDirectives[authority] == c.defaultDirectives
  }

  /** The default directives and those some authority names; only these are compiled. */
  predicate Referenced(c: PluginConfiguration, name: string) {
    name == c.defaultDirectives || exists a :: a in c.perAuthorityDirectives && c.perAuthorityDirectives[a] == name
  }

  /** When a static start succeeds. */
  predicate Startable(c: PluginConfiguration, compiles: Waf -> bool) {
    && (forall name :: name in c.directivesMap && Referenced(c, name) ==> compiles(WafOf(c.directivesMap[name])))
    && UsesDefault(c, "")
  }

  // ---- the table that is built ----

  ghost function StaticTable(c: PluginConfiguration): WafMap
    requires Closed(c)
  {
    WafMap(map a | a in c.perAuthorityDirectives && !UsesDefault(c, a) :: WafOf(c.directivesMap[c.perAuthorityDirectives[a]]),
           if c.defaultDirectives in c.directivesMap then Some(WafOf(c.directivesMap[c.defaultDirectives])) else None)
  }

  /**
   The table, which stores no authority of the default directives, answers every lookup as the simple
   form does: the same engine, its origin, or the same error.
   */
  lemma RoutingRefinement(c: PluginConfiguration, authority: string)
    requires Closed(c)
    ensures GetWAFOrDefault(StaticTable(c), authority) ==
              match Route(c, authority)
              case Some(waf) => Resolved(waf, UsesDefault(c, authority))
              case None => NoDefaultWAF
  {
    assert authority in StaticTable(c).kv <==> authority in c.perAuthorityDirectives && !UsesDefault(c, authority);
  }

  // ---- what the engines are compiled from ----

  /** The lines of a text. */
  function Lines(text: string): seq<string> {
    if text == [] then [""]
    else if text[0] == '\n' then [""] + Lines(text[1..])
    else
      var rest := Lines(text[1..]);
      if rest == [] then [[text[0]]] else [[text[0]] + rest[0]] + rest[1..]
  }

  lemma {:induction false} LinesOfOne(line: string)
    requires '\n' !in line
    ensures Lines(line) == [line]
  {
    if line != [] {
      LinesOfOne(line[1..]);
      assert [line[0]] + line[1..] == line;
    }
  }

  lemma {:induction false} LinesOfMore(line: string, text: string)
    requires '\n' !in line
    ensures Lines(line + "\n" + text) == [line] + Lines(text)
  {
    if line == [] {
      assert (line + "\n" + text)[1..] == text;
    } else {
      var all := line + "\n" + text;
      assert all[1..] == line[1..] + "\n" + text && all[0] == line[0];
      LinesOfMore(line[1..], text);
      assert [line[0]] + line[1..] == line;
      assert ([line[1..]] + Lines(text))[1..] == Lines(text);
    }
  }

  predicate Unbroken(directives: seq<string>) {
    forall i :: 0 <= i < |directives| ==> '\n' !in directives[i]
  }

  /** The directives are the lines of the text the engine is compiled from. */
  lemma {:induction false} JoinedLines(directives: seq<string>)
    requires directives != [] && Unbroken(directives)
    ensures Lines(Join(directives)) == directives
  {
    if |directives| == 1 {
      LinesOfOne(directives[0]);
      assert directives == [directives[0]];
    } else {
      JoinedLines(directives[1..]);
      LinesOfMore(directives[0], Join(directives[1..]));
      assert directives == [directives[0]] + directives[1..];
    }
  }

  /** Whatever engine the table gives an authority is compiled, line by line, from the directives it names, without data files. */
  lemma LookupCompiles(c: PluginConfiguration, authority: string)
    requires Closed(c) && GetWAFOrDefault(StaticTable(c), authority).Resolved?
    ensures var name := if authority in c.perAuthorityDirectives then c.perAuthorityDirectives[authority] else c.defaultDirectives;
            var waf := GetWAFOrDefault(StaticTable(c), authority).waf;
            && name in c.directivesMap && waf.dataFiles == map[]
            && (c.directivesMap[name] == [] ==> waf.directives == "")
            && (c.directivesMap[name] != [] && Unbroken(c.directivesMap[name]) ==> Lines(waf.directives) == c.directivesMap[name])
  {
    RoutingRefinement(c, authority);
    var name := if authority in c.perAuthorityDirectives then c.perAuthorityDirectives[authority] else c.defaultDirectives;
    if name in c.directivesMap && c.directivesMap[name] != [] && Unbroken(c.directivesMap[name]) {
      JoinedLines(c.directivesMap[name]);
    }
  }

  // ---- building it ----

  /** Inverts the authority table, in whatever order the map is walked. */
  method InvertAuthorities(m: map<string, string>) returns (r: map<string, seq<string>>)
    ensures forall name :: name in r <==> exists a :: a in m && m[a] == name
    ensures forall name, a :: name in r ==> (a in r[name] <==> a in m && m[a] == name)
    ensures forall name :: name in r ==> r[name] != []
  {
    r := map[];
    var rest := m.Keys;
    while rest != {}
      invariant rest <= m.Keys
      invariant forall name :: name in r <==> exists a :: a in m && a !in rest && m[a] == name
      invariant forall name, a :: name in r ==> (a in r[name] <==> a in m && a !in rest && m[a] == name)
      invariant forall name :: name in r ==> r[name] != []
      decreases |rest|
    {
      var authority :| authority in rest;
      var name := m[authority];
      r := r[name := (if name in r then r[name] else []) + [authority]];
      rest := rest - {authority};
    }
  }

  /** Registers one engine for a list of authorities; stops at an empty authority. */
  method PutAll(table: WafTable, authorities: seq<string>, waf: Waf) returns (ok: bool)
    modifies table.routes
    ensures ok <==> "" !in authorities
    ensures ok ==> table.routes.kv == old(table.routes.kv) + map a | a in authorities :: waf
  {
    for i := 0 to |authorities|
      invariant "" !in authorities[..i]
      invariant table.routes.kv == old(table.routes.kv) + map a | a in authorities[..i] :: waf
    {
      assert authorities[..i + 1] == authorities[..i] + [authorities[i]];
      ok := table.Put(authorities[i], waf);
      if !ok {
        assert authorities[i] in authorities;
        return;
      }
    }
    assert authorities[..|authorities|] == authorities;
    return true;
  }

  datatype Outcome = Started | CompileFailed(name: string) | EmptyAuthority | UnknownDirectives

  /** What has been stored once all names outside `rest` have been dealt with. */
  ghost predicate Progress(c: PluginConfiguration, rest: set<string>, m: WafMap)
    requires Closed(c)
  {
    && m.kv == (map a | a in c.perAuthorityDirectives && !UsesDefault(c, a) && c.perAuthorityDirectives[a] !in rest
                  :: WafOf(c.directivesMap[c.perAuthorityDirectives[a]]))
    && m.defaultWAF == if c.defaultDirectives in c.directivesMap && c.defaultDirectives !in rest
                       then Some(WafOf(c.directivesMap[c.defaultDirectives])) else None
  }

  /** The authorities for which an engine is registered under its own name. */
  ghost predicate AuthoritiesOf(c: PluginConfiguration, name: string, authorities: seq<string>) {
    if name == c.defaultDirectives then authorities == []
    else authorities != [] && forall a :: a in authorities <==> a in c.perAuthorityDirectives && c.perAuthorityDirectives[a] == name
  }

  lemma StoredName(c: PluginConfiguration, rest: set<string>, name: string, authorities: seq<string>, m: WafMap, r: WafMap)
    requires Closed(c) && name in c.directivesMap && name !in rest && Progress(c, rest + {name}, m)
    requires AuthoritiesOf(c, name, authorities)
    requires r.kv == m.kv + map a | a in authorities :: WafOf(c.directivesMap[name])
    requires r.defaultWAF == if authorities == [] then Some(WafOf(c.directivesMap[name])) else m.defaultWAF
    ensures Progress(c, rest, r)
  {}

  /** The inverted table still holds what belongs to the names in `rest`, and nothing else. */
  ghost predicate InverseOn(c: PluginConfiguration, inverted: map<string, seq<string>>, rest: set<string>) {
    && inverted.Keys <= rest
    && forall name :: name in rest ==>
         && (name in inverted <==> exists a :: a in c.perAuthorityDirectives && c.perAuthorityDirectives[a] == name)
         && (name in inverted ==>
               && inverted[name] != []
               && forall a :: a in inverted[name] <==> a in c.perAuthorityDirectives && c.perAuthorityDirectives[a] == name)
  }

  lemma InverseShrinks(c: PluginConfiguration, inverted: map<string, seq<string>>, rest: set<string>, name: string)
    requires InverseOn(c, inverted, rest + {name}) && name !in rest
    ensures InverseOn(c, inverted - {name}, rest)
  {}

  /** The names outside `rest` give no reason to refuse the start. */
  ghost predicate FineOutside(c: PluginConfiguration, compiles: Waf -> bool, rest: set<string>) {
    && (forall name :: name in c.directivesMap && name !in rest && Referenced(c, name) ==> compiles(WafOf(c.directivesMap[name])))
    && (!UsesDefault(c, "") ==> c.perAuthorityDirectives[""] in rest)
  }

  lemma BuiltTable(c: PluginConfiguration, compiles: Waf -> bool, m: WafMap)
    requires Closed(c) && Progress(c, {}, m) && FineOutside(c, compiles, {})
    ensures m == StaticTable(c) && Startable(c, compiles)
  {
    assert m.kv == StaticTable(c).kv;
  }

  /** One turn of the building loop. */
  method BuildOne(c: PluginConfiguration, compiles: Waf -> bool, ghost rest: set<string>, name: string,
                  inverted: map<string, seq<string>>, table: WafTable)
    returns (r: Outcome)
    requires Closed(c) && name in c.directivesMap && name !in rest
    requires Progress(c, rest + {name}, table.Value()) && InverseOn(c, inverted, rest + {name})
    modifies table, table.routes
    ensures r != UnknownDirectives
    ensures r.Started? ==> Progress(c, rest, table.Value())
    ensures r.Started? && FineOutside(c, compiles, rest + {name}) ==> FineOutside(c, compiles, rest)
    ensures r.CompileFailed? ==> Referenced(c, name) && !compiles(WafOf(c.directivesMap[name]))
    ensures r.EmptyAuthority? ==> !UsesDefault(c, "")
  {
    var authorities := [];
    if name != c.defaultDirectives {
      if name !in inverted {
        assert !Referenced(c, name);
        return Started;
      }
      authorities := inverted[name];
    }
    ghost var before := table.Value();
    var waf := WafOf(c.directivesMap[name]);
    if !compiles(waf) {
      return CompileFailed(name);
    }
    if |authorities| == 0 {
      table.SetDefaultWAF(waf);
    }
    var ok := PutAll(table, authorities, waf);
    if !ok {
      return EmptyAuthority;
    }
    StoredName(c, rest, name, authorities, before, table.Value());
    return Started;
  }

  /**
   The static part of `OnPluginStart`. Both maps are walked in an arbitrary order, yet the table is
   always the same one, and the exit for unknown directives is never taken.
   */
  method BuildWAFs(c: PluginConfiguration, compiles: Waf -> bool) returns (r: Outcome, table: WafTable)
    requires Closed(c)
    ensures fresh(table) && fresh(table.routes)
    ensures r != UnknownDirectives
    ensures r.Started? <==> Startable(c, compiles)
    ensures r.Started? ==> table.Value() == StaticTable(c)
  {
    var inverted := InvertAuthorities(c.perAuthorityDirectives);
    table := new WafTable();
    var rest := c.directivesMap.Keys;
    while rest != {}
      invariant rest <= c.directivesMap.Keys
      invariant Progress(c, rest, table.Value())
      invariant InverseOn(c, inverted, rest)
      invariant FineOutside(c, compiles, rest)
      decreases |rest|
    {
      var name :| name in rest;
      ghost var whole := rest;
      rest := rest - {name};
      assert rest + {name} == whole;
      InverseShrinks(c, inverted, rest, name);
      r := BuildOne(c, compiles, rest, name, inverted, table);
      if r != Started {
        return;
      }
      inverted := inverted - {name};
    }
    BuiltTable(c, compiles, table.Value());
    r := if inverted != map[] then UnknownDirectives else Started;
  }
}
