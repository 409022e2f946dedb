/** The `corazaPlugin` of wasmplugin/plugin.go as an object: its start and its reload handlers. */
module CorazaPlugins {
  import opened Prelude
  import opened Wafs
  import opened Metrics
  import opened Config
  import opened Routing
  import opened Reload
  import HttpContexts

  /** The host as the plugin context sees it. */
  class PluginHost {
    var dispatched: seq<CallKind>
    var tickPeriodMs: Option<int>

    constructor ()
      ensures dispatched == [] && tickPeriodMs == None
    {
      dispatched, tickPeriodMs := [], None;
    }

    method DispatchHttpCall(kind: CallKind, ok: bool)
      modifies this`dispatched
      ensures dispatched == if ok then old(dispatched) + [kind] else old(dispatched)
    {
      if ok { dispatched := dispatched + [kind]; }
    }

    method SetTickPeriodMilliSeconds(ms: int, accepted: bool) returns (ok: bool)
      modifies this`tickPeriodMs
      ensures ok == accepted && tickPeriodMs == if ok then Some(ms) else old(tickPeriodMs)
    {
      ok := accepted;
      if ok { tickPeriodMs := Some(ms); }
    }
  }

  /** What the host answers while the plugin starts. */
  datatype StartAnswers = StartAnswers(configReadable: bool, dispatchOk: bool, tickOk: bool)

  datatype StartStatus = OK | Failed

  /** A label list that holds each configured pair once. */
  ghost predicate ListsPairs(kv: seq<string>, m: map<string, string>) {
    && |kv| == 2 * |m|
    && (forall i :: 0 <= i < |m| ==> kv[2 * i] in m && kv[2 * i + 1] == m[kv[2 * i]])
    && (forall i, j :: 0 <= i < j < |m| ==> kv[2 * i] != kv[2 * j])
  }

  /** The pairs of the keys `done`, each once, are listed. */
  ghost predicate ListsKeys(kv: seq<string>, m: map<string, string>, done: set<string>) {
    && |kv| == 2 * |done|
    && (forall i :: 0 <= i < |done| ==> kv[2 * i] in done && kv[2 * i] in m && kv[2 * i + 1] == m[kv[2 * i]])
    && (forall i, j :: 0 <= i < j < |done| ==> kv[2 * i] != kv[2 * j])
  }

  lemma ListsOneMore(kv: seq<string>, m: map<string, string>, done: set<string>, k: string)
    requires ListsKeys(kv, m, done) && k in m && k !in done
    ensures ListsKeys(kv + [k, m[k]], m, done + {k})
  {
    var more, n := kv + [k, m[k]], |done|;
    assert |done + {k}| == n + 1 && |more| == 2 * n + 2;
    assert more[2 * n] == k && more[2 * n + 1] == m[k];
    assert forall i :: 0 <= i < n ==> more[2 * i] == kv[2 * i] && more[2 * i + 1] == kv[2 * i + 1];
  }

  lemma NoKeysListed(m: map<string, string>)
    ensures ListsKeys([], m, m.Keys - m.Keys)
  {
    assert m.Keys - m.Keys == {};
  }

  lemma AllKeysListed(kv: seq<string>, m: map<string, string>)
    requires ListsKeys(kv, m, m.Keys)
    ensures ListsPairs(kv, m)
  {
    assert |m.Keys| == |m|;
  }

  method ListLabels(m: map<string, string>) returns (kv: seq<string>)
    ensures ListsPairs(kv, m)
  {
    hide ListsKeys, ListsPairs;
    kv := [];
    var rest := m.Keys;
    NoKeysListed(m);
    while rest != {}
      invariant rest <= m.Keys && ListsKeys(kv, m, m.Keys - rest)
      decreases |rest|
    {
      var k :| k in rest;
      ListsOneMore(kv, m, m.Keys - rest, k);
      assert m.Keys - (rest - {k}) == (m.Keys - rest) + {k};
      kv := kv + [k, m[k]];
      rest := rest - {k};
    }
    assert m.Keys - rest == m.Keys;
    AllKeysListed(kv, m);
  }

  class CorazaPlugin {
    const compiles: Waf -> bool
    const host: PluginHost
    var perAuthorityWAFs: WafTable
    var metricLabelsKV: seq<string>
    var metrics: WafMetrics?
    var ruleSetCacheServerCluster: string
    var ruleSetCacheServerInstance: string
    var ruleSetCacheServerToken: string
    var ruleSetReloadEnabled: bool
    var currentRuleSetUUID: string
    var failurePolicy: HttpStream.FailurePolicy

    constructor (compiles: Waf -> bool, host: PluginHost)
      ensures this.compiles == compiles && this.host == host && fresh(perAuthorityWAFs)
      ensures metrics == null && metricLabelsKV == [] && !ruleSetReloadEnabled && currentRuleSetUUID == ""
    {
      this.compiles, this.host := compiles, host;
      perAuthorityWAFs := new WafTable();
      metrics, metricLabelsKV := null, [];
      ruleSetCacheServerCluster, ruleSetCacheServerInstance, ruleSetCacheServerToken := "", "", "";
      ruleSetReloadEnabled, currentRuleSetUUID, failurePolicy := false, "", HttpStream.OtherPolicy("");
    }

    /** The reloading part of the state, as the functions of Reload work on it. */
    ghost function State(): PluginState
      reads this, perAuthorityWAFs, perAuthorityWAFs.routes, host
    {
      PluginState(perAuthorityWAFs.Value(), currentRuleSetUUID, ruleSetReloadEnabled, host.dispatched)
    }

    // ---- starting ----

    method StartMetrics(labels: map<string, string>)
      modifies this`metricLabelsKV, this`metrics
      ensures metrics != null && fresh(metrics) && fresh(metrics.host) && metrics.Valid() && metrics.Value() == Store([], [])
      ensures exists kv :: ListsPairs(kv, labels) && metricLabelsKV == old(metricLabelsKV) + kv
    {
      var kv := ListLabels(labels);
      metricLabelsKV := metricLabelsKV + kv;
      var registry := new MetricHost();
      metrics := new WafMetrics(registry);
    }

    /** The branch taken when a rule-set server is configured. */
    method StartWithServer(c: PluginConfiguration, a: StartAnswers) returns (status: StartStatus)
      requires !ruleSetReloadEnabled
      modifies this, host
      ensures status.OK? <==> c.ruleSetReloadIntervalSeconds <= 0 || a.tickOk
      ensures fresh(perAuthorityWAFs) && perAuthorityWAFs.Value() == WafMap(map[], None)
      ensures ruleSetReloadEnabled == (c.ruleSetReloadIntervalSeconds > 0)
      ensures host.dispatched == if a.dispatchOk then old(host.dispatched) + [RulesCall] else old(host.dispatched)
      ensures host.tickPeriodMs ==
                if status.OK? && ruleSetReloadEnabled then Some(TickPeriodMs(c.ruleSetReloadIntervalSeconds)) else old(host.tickPeriodMs)
      ensures currentRuleSetUUID == old(currentRuleSetUUID) && failurePolicy == old(failurePolicy)
      ensures metrics != null && metrics.Valid()
      ensures exists kv :: ListsPairs(kv, c.metricLabels) && metricLabelsKV == old(metricLabelsKV) + kv
    {
      FetchRulesFromCache(a.dispatchOk);
      perAuthorityWAFs := new WafTable();
      StartMetrics(c.metricLabels);
      if c.ruleSetReloadIntervalSeconds > 0 {
        ruleSetReloadEnabled := true;
        var intervalMs := Uint32(c.ruleSetReloadIntervalSeconds * 1000);
        if intervalMs < CACHE_TIMEOUT_MS * 2 + 1000 {
          intervalMs := CACHE_TIMEOUT_MS * 2 + 1000;
        }
        var ok := host.SetTickPeriodMilliSeconds(intervalMs, a.tickOk);
        if !ok {
          return Failed;
        }
      }
      return OK;
    }

    /**
     The whole start. Without a rule-set server it succeeds exactly for an accepted, startable
     configuration, and then every authority is routed as the configuration says.
     */
    method OnPluginStart(doc: Document, a: StartAnswers) returns (status: StartStatus, ghost parsed: Parsed)
      requires !ruleSetReloadEnabled && currentRuleSetUUID == ""
      modifies this, host
      ensures status.OK? ==> a.configReadable && parsed.Accepted? && Closed(parsed.config)
      ensures a.configReadable && parsed.Accepted? && parsed.config.ruleSetCacheServerCluster == "" ==>
                (status.OK? <==> Startable(parsed.config, compiles))
      ensures a.configReadable ==> (parsed.Accepted? <==> doc.Blank? || (doc.Object? && Acceptable(doc.f)))
      ensures a.configReadable && parsed.Accepted? && doc.Object? ==> Means(doc.f, parsed.config)
      ensures status.OK? ==> failurePolicy == parsed.config.failurePolicy && metrics != null && metrics.Valid()
      ensures status.OK? && parsed.config.ruleSetCacheServerCluster == "" ==>
                && !ruleSetReloadEnabled && host.dispatched == old(host.dispatched)
                && forall authority :: GetWAFOrDefault(perAuthorityWAFs.Value(), authority) ==
                     match Route(parsed.config, authority)
                     case Some(waf) => Resolved(waf, UsesDefault(parsed.config, authority))
                     case None => NoDefaultWAF
      ensures a.configReadable && parsed.Accepted? && parsed.config.ruleSetCacheServerCluster != "" ==>
                && (status.OK? <==> parsed.config.ruleSetReloadIntervalSeconds <= 0 || a.tickOk)
                && FreshlyStarted(State()) && ruleSetReloadEnabled == (parsed.config.ruleSetReloadIntervalSeconds > 0)
                && host.dispatched == (if a.dispatchOk then old(host.dispatched) + [RulesCall] else old(host.dispatched))
                && (status.OK? && ruleSetReloadEnabled ==>
                      host.tickPeriodMs == Some(TickPeriodMs(parsed.config.ruleSetReloadIntervalSeconds)))
      ensures status.OK? ==> exists kv :: ListsPairs(kv, parsed.config.metricLabels) && metricLabelsKV == old(metricLabelsKV) + kv
    {
      hide Means, Acceptable, GetWAFOrDefault, Route, UsesDefault, Startable, Closed, ListsPairs, TickPeriodMs;
      parsed := InvalidJson;
      if !a.configReadable {
        return Failed, parsed;
      }
      var r := ParsePluginConfiguration(doc);
      parsed := r;
      if !r.Accepted? {
        return Failed, parsed;
      }
      var config := r.config;
      ruleSetCacheServerCluster := config.ruleSetCacheServerCluster;
      ruleSetCacheServerInstance := config.ruleSetCacheServerInstance;
      ruleSetCacheServerToken := config.ruleSetCacheServerToken;
      failurePolicy := config.failurePolicy;
      if |ruleSetCacheServerCluster| != 0 {
        status := StartWithServer(config, a);
        return status, parsed;
      }
      var outcome, table := BuildWAFs(config, compiles);
      if outcome != Started {
        return Failed, parsed;
      }
      perAuthorityWAFs := table;
      StartMetrics(config.metricLabels);
      forall authority
        ensures GetWAFOrDefault(perAuthorityWAFs.Value(), authority) ==
                  match Route(config, authority)
                  case Some(waf) => Resolved(waf, UsesDefault(config, authority))
                  case None => NoDefaultWAF
      {
        RoutingRefinement(config, authority);
      }
      return OK, parsed;
    }

    /** A new stream takes a copy of the table as it is now. */
    method NewHttpContext() returns (ctx: HttpContexts.HttpContext)
      requires metrics != null && metrics.Valid() && |metricLabelsKV| % 2 == 0
      ensures fresh(ctx) && ctx.Valid() && ctx.metrics == metrics
      ensures ctx.State() == HttpStream.NewStream(perAuthorityWAFs.Value(), failurePolicy, metricLabelsKV)
      ensures ctx.perAuthorityWAFs.routes == perAuthorityWAFs.routes && OwnTable(ctx)
    {
      var copy := perAuthorityWAFs.Copy();
      ctx := new HttpContexts.HttpContext(copy, failurePolicy, metricLabelsKV, metrics);
    }

    /** The stream has a table of its own, though perhaps with the plugin's routes. */
    ghost predicate OwnTable(ctx: HttpContexts.HttpContext)
      reads this`perAuthorityWAFs
    {
      ctx.perAuthorityWAFs != perAuthorityWAFs
    }

    // ---- reloading, beside any streams that are open ----

    method FetchRulesFromCache(dispatchOk: bool)
      modifies host
      ensures host.tickPeriodMs == old(host.tickPeriodMs)
      ensures host.dispatched == if dispatchOk then old(host.dispatched) + [RulesCall] else old(host.dispatched)
    {
      host.DispatchHttpCall(RulesCall, dispatchOk);
    }

    method Tick(dispatchOk: bool, ghost open: set<HttpContexts.HttpContext>)
      modifies host
      ensures State() == OnTick(old(State()), dispatchOk)
      ensures unchanged(perAuthorityWAFs, perAuthorityWAFs.routes)
      ensures forall c :: c in open ==> c.State() == old(c.State())
    {
      if !ruleSetReloadEnabled {
        return;
      }
      host.DispatchHttpCall(LatestCall, dispatchOk);
    }

    method OnLatestAnswer(r: Reply<Latest>, dispatchOk: bool, ghost open: set<HttpContexts.HttpContext>)
      modifies host
      ensures State() == OnLatestRuleSetResponse(old(State()), r, dispatchOk)
      ensures unchanged(perAuthorityWAFs, perAuthorityWAFs.routes)
      ensures forall c :: c in open ==> c.State() == old(c.State())
    {
      if r.headers.None? {
        return;
      }
      var statusCode := FindStatus(r.headers.value);
      if statusCode != "200" {
        return;
      }
      if !r.body.Decoded? {
        return;
      }
      if r.body.value.uuid != currentRuleSetUUID {
        FetchRulesFromCache(dispatchOk);
      }
    }

    /**
     A loaded rule set becomes the default of the plugin's table. Open streams share that table's routes,
     but the handler leaves the routes alone, so every open stream stays as it was, its table included.
     */
    method OnRulesAnswer(r: Reply<RuleSet>, ghost open: set<HttpContexts.HttpContext>)
      requires forall c :: c in open ==> OwnTable(c)
      modifies this`currentRuleSetUUID, perAuthorityWAFs`defaultWAF
      ensures State() == OnRuleSetCacheServerResponse(old(State()), r, compiles)
      ensures unchanged(perAuthorityWAFs.routes)
      ensures forall c :: c in open ==> c.State() == old(c.State()) && OwnTable(c)
    {
      if r.headers.None? {
        return;
      }
      var statusCode := FindStatus(r.headers.value);
      if statusCode != "200" {
        return;
      }
      if !r.body.Decoded? {
        return;
      }
      if |r.body.value.rules| == 0 {
        return;
      }
      var waf := Waf(r.body.value.rules, r.body.value.dataFiles);
      if !compiles(waf) {
        return;
      }
      perAuthorityWAFs.SetDefaultWAF(waf);
      currentRuleSetUUID := r.body.value.uuid;
    }
  }

  /** The loop that looks for the status among the headers. */
  method FindStatus(headers: seq<(string, string)>) returns (statusCode: string)
    ensures statusCode == StatusOf(headers)
  {
    statusCode := "";
    for i := 0 to |headers|
      invariant StatusOf(headers) == StatusOf(headers[i..]) && statusCode == ""
    {
      if headers[i].0 == ":status" {
        return headers[i].1;
      }
      assert headers[i..][1..] == headers[i + 1..];
    }
  }
}
