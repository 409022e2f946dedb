/** Compiled rule engines and the table that routes an authority to one of them. */
module Wafs {
  import opened Prelude

  /** A compiled engine, identified by everything it was compiled from. */
  datatype Waf = Waf(directives: string, dataFiles: map<string, seq<Byte>>)

  /** The value of a `wafMap`. */
  datatype WafMap = WafMap(kv: map<string, Waf>, defaultWAF: Option<Waf>)

  datatype Resolution = Resolved(waf: Waf, isDefault: bool) | NoDefaultWAF

  /** `wafMap.getWAFOrDefault`. */
  function GetWAFOrDefault(m: WafMap, key: string): Resolution {
    if key in m.kv then Resolved(m.kv[key], false)
    else if m.defaultWAF.None? then NoDefaultWAF
    else Resolved(m.defaultWAF.value, true)
  }

  /** The Go map behind a `wafMap`; copies of a `wafMap` share it. */
  class Routes {
    var kv: map<string, Waf>

    constructor ()
      ensures kv == map[]
    {
      kv := map[];
    }
  }

  /** A `wafMap`: a reference to its routes and a default of its own. */
  class WafTable {
    const routes: Routes
    var defaultWAF: Option<Waf>

    ghost function Value(): WafMap
      reads this, routes
    {
      WafMap(routes.kv, defaultWAF)
    }

    constructor ()
      ensures Value() == WafMap(map[], None) && fresh(routes)
    {
      routes := new Routes();
      defaultWAF := None;
    }

    constructor Of(routes: Routes, defaultWAF: Option<Waf>)
      ensures this.routes == routes && this.defaultWAF == defaultWAF
    {
      this.routes, this.defaultWAF := routes, defaultWAF;
    }

    /** Registers an engine for one authority; the empty authority is refused and changes nothing. */
    method Put(key: string, waf: Waf) returns (ok: bool)
      modifies routes
      ensures ok == (key != "")
      ensures routes.kv == if ok then old(routes.kv)[key := waf] else old(routes.kv)
    {
      if |key| == 0 {
        return false;
      }
      routes.kv := routes.kv[key := waf];
      return true;
    }

    method SetDefaultWAF(w: Waf)
      modifies this`defaultWAF
      ensures defaultWAF == Some(w)
    {
      defaultWAF := Some(w);
    }

    method Resolve(key: string) returns (r: Resolution)
      ensures r == GetWAFOrDefault(Value(), key)
    {
      if key in routes.kv {
        return Resolved(routes.kv[key], false);
      }
      if defaultWAF.None? {
        return NoDefaultWAF;
      }
      return Resolved(defaultWAF.value, true);
    }

    /** The copy a new stream takes: its own default, and the same routes. */
    method Copy() returns (c: WafTable)
      ensures fresh(c) && c.routes == routes && c.Value() == Value()
    {
      c := new WafTable.Of(routes, defaultWAF);
    }
  }

  /**
   What is registered in a table reaches every copy of it, whereas a new default reaches none. So streams
   are isolated from the plugin only as long as nothing is registered after they were opened.
   */
  method CopiesShareRoutes(t: WafTable, key: string, w: Waf, d: Waf) returns (c: WafTable)
    requires key != ""
    modifies t, t.routes
    ensures fresh(c) && c.Value() == WafMap(old(t.routes.kv)[key := w], old(t.defaultWAF))
    ensures t.Value() == WafMap(old(t.routes.kv)[key := w], Some(d))
  {
    c := t.Copy();
    var _ := t.Put(key, w);
    t.SetDefaultWAF(d);
  }
}
