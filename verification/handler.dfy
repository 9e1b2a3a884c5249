/** The query and presentation layer (harpseal/web/handler.py): resolves the
    requested time window, projects plugin metadata, and turns the stored
    samples of each field group into chart rows. */
module Handlers {
  import opened Common
  import opened Plugins

  /** A stored sample of one field group: its creation time and its values
      by metric name. */
  datatype Record = Record(createdAt: Time, items: map<string, Value>)

  /** The collaborators the handler reaches outside the core. */
  datatype Env = Env(
    now: Time,                      // datetime.now()
    weekAgo: Time,                  // dtutils.ago(days=7)
    parse: string -> Option<Time>,  // dtutils.parse; None when it raises
    unixtime: Time -> int,          // dtutils.unixtime
    store: Model -> seq<Record>)    // every record of a model, in the store's order

  /** The route's `name` and the `gte` / `lte` query arguments, each possibly absent. */
  datatype Request = Request(name: Option<string>, gte: Option<string>, lte: Option<string>)

  /** The `(gte, lte)` pair `parse_comptarget` returns. */
  datatype Window = Window(gte: Option<Time>, lte: Option<Time>)

  /** `get_plugin_list`: the keys view, or the details of every plugin. */
  datatype PluginList = Names(names: set<string>) | Details(details: map<string, Json>)

  /** One entry of `get_plugin_logs`: `{'type': ..., 'legends': ..., 'data': ...}`. */
  datatype FieldLog = FieldLog(hint: string, legends: seq<string>, data: seq<seq<Json>>)

  const PluginMissing := "Plugin does not exist."
  const UnparsableDatetime := "The given datetime cannot be parsed."

  // ---------------------------------------------------------------------
  // The store query

  predicate InRange(r: Record, gte: Time, lte: Time) {
    gte <= r.createdAt <= lte
  }

  /** `model.objects(created_at__gte=gte, created_at__lte=lte)` over the
      model's records: the records in the window, in store order. */
  function Query(records: seq<Record>, gte: Time, lte: Time): (q: seq<Record>)
    ensures |q| <= |records|
    ensures forall r :: r in q ==> InRange(r, gte, lte)
  {
    if records == [] then []
    else (if InRange(records[0], gte, lte) then [records[0]] else []) + Query(records[1..], gte, lte)
  }

  /** The query keeps the store's order: it distributes over concatenation. */
  lemma {:induction false} QueryAppend(a: seq<Record>, b: seq<Record>, gte: Time, lte: Time)
    ensures Query(a + b, gte, lte) == Query(a, gte, lte) + Query(b, gte, lte)
  {
    if a == [] {
      assert a + b == b;
    } else {
      assert (a + b)[1..] == a[1..] + b;
      QueryAppend(a[1..], b, gte, lte);
    }
  }

  /** No record in the window is dropped and none is duplicated: each one
      appears exactly as often as the store holds it; nothing else appears. */
  lemma {:induction false} QueryCount(records: seq<Record>, gte: Time, lte: Time, r: Record)
    ensures multiset(Query(records, gte, lte))[r] ==
            if InRange(r, gte, lte) then multiset(records)[r] else 0
  {
    if records != [] {
      assert records == [records[0]] + records[1..];
      QueryCount(records[1..], gte, lte, r);
    }
  }

  lemma QueryMembership(records: seq<Record>, gte: Time, lte: Time, r: Record)
    ensures r in Query(records, gte, lte) <==> r in records && InRange(r, gte, lte)
  {
    QueryCount(records, gte, lte, r);
    assert r in records <==> multiset(records)[r] > 0;
    assert r in Query(records, gte, lte) <==> multiset(Query(records, gte, lte))[r] > 0;
  }

  // ---------------------------------------------------------------------
  // Chart rows

  /** `getattr(record.items, n)`: the stored value, or None when the record
      holds no value for the metric. */
  function Cell(record: Record, metric: string): Json {
    if metric in record.items then ValueJson(record.items[metric]) else JNull
  }

  function MetricNames(metrics: seq<Metric>): (names: seq<string>)
    ensures |names| == |metrics|
    ensures forall i :: 0 <= i < |metrics| ==> names[i] == metrics[i].name
  {
    seq(|metrics|, i requires 0 <= i < |metrics| => metrics[i].name)
  }

  function Legends(metrics: seq<Metric>): seq<string> {
    ["created"] + MetricNames(metrics)
  }

  function Row(record: Record, metrics: seq<Metric>, unixtime: Time -> int): seq<Json> {
    [JInt(unixtime(record.createdAt))] + seq(|metrics|, i requires 0 <= i < |metrics| => Cell(record, metrics[i].name))
  }

  function Rows(records: seq<Record>, metrics: seq<Metric>, unixtime: Time -> int): seq<seq<Json>> {
    seq(|records|, i requires 0 <= i < |records| => Row(records[i], metrics, unixtime))
  }

  /** The chart entry of one field group over its model's records. */
  function GroupLog(hint: string, metrics: seq<Metric>, records: seq<Record>, gte: Time, lte: Time,
                    unixtime: Time -> int): FieldLog
  {
    FieldLog(hint, Legends(metrics), Rows(Query(records, gte, lte), metrics, unixtime))
  }

  /** The shape of an entry: 'created' then the metric names in declaration
      order; each row as long as the legends, starting with the creation
      time and continuing with the record's values in declaration order;
      one row per record in the window, in store order. */
  lemma GroupLogShape(hint: string, metrics: seq<Metric>, records: seq<Record>, gte: Time, lte: Time,
                      unixtime: Time -> int)
    ensures var f := GroupLog(hint, metrics, records, gte, lte, unixtime);
      && f.hint == hint
      && |f.legends| == |metrics| + 1 && f.legends[0] == "created"
      && (forall i :: 0 <= i < |metrics| ==> f.legends[i + 1] == metrics[i].name)
      && |f.data| == |Query(records, gte, lte)|
      && forall j :: 0 <= j < |f.data| ==>
           var rec := Query(records, gte, lte)[j];
           && |f.data[j]| == |f.legends|
           && f.data[j][0] == JInt(unixtime(rec.createdAt))
           && forall i :: 1 <= i < |f.legends| ==> f.data[j][i] == Cell(rec, f.legends[i])
  {
    var f := GroupLog(hint, metrics, records, gte, lte, unixtime);
    var q := Query(records, gte, lte);
    forall j | 0 <= j < |f.data|
      ensures |f.data[j]| == |f.legends|
      ensures f.data[j][0] == JInt(unixtime(q[j].createdAt))
      ensures forall i :: 1 <= i < |f.legends| ==> f.data[j][i] == Cell(q[j], f.legends[i])
    {
      RowShape(q[j], metrics, unixtime);
    }
  }

  /** One row lines up with the legends: the creation time under 'created',
      then each metric's value under its name. */
  lemma RowShape(record: Record, metrics: seq<Metric>, unixtime: Time -> int)
    ensures var row, legends := Row(record, metrics, unixtime), Legends(metrics);
      && |row| == |legends|
      && row[0] == JInt(unixtime(record.createdAt))
      && forall i :: 1 <= i < |legends| ==> row[i] == Cell(record, legends[i])
  {
  }

  lemma RowsAppend(a: seq<Record>, b: seq<Record>, metrics: seq<Metric>, unixtime: Time -> int)
    ensures Rows(a + b, metrics, unixtime) == Rows(a, metrics, unixtime) + Rows(b, metrics, unixtime)
  {
    var ab := a + b;
    assert forall i :: 0 <= i < |a| ==> ab[i] == a[i];
    assert forall i :: 0 <= i < |b| ==> ab[|a| + i] == b[i];
  }

  /** Rows follow the store's order: the rows of two consecutive runs of
      records are the rows of the first followed by those of the second. */
  lemma GroupLogRowsInStoreOrder(hint: string, metrics: seq<Metric>, a: seq<Record>, b: seq<Record>,
                                 gte: Time, lte: Time, unixtime: Time -> int)
    ensures GroupLog(hint, metrics, a + b, gte, lte, unixtime).data ==
            GroupLog(hint, metrics, a, gte, lte, unixtime).data + GroupLog(hint, metrics, b, gte, lte, unixtime).data
  {
    QueryAppend(a, b, gte, lte);
    RowsAppend(Query(a, gte, lte), Query(b, gte, lte), metrics, unixtime);
  }

  /** A single record gives one row exactly when it lies in the window. */
  lemma GroupLogOfOneRecord(hint: string, metrics: seq<Metric>, r: Record, gte: Time, lte: Time,
                            unixtime: Time -> int)
    ensures GroupLog(hint, metrics, [r], gte, lte, unixtime).data ==
            if InRange(r, gte, lte) then [Row(r, metrics, unixtime)] else []
  {
    assert [r][1..] == [];
  }

  /** A sample of `disk` at time t with free=500 and used=1500, queried one
      minute either side of t, gives exactly one row. */
  lemma DiskUsageScenario(t: Time, unixtime: Time -> int)
    ensures var metrics := [Metric("free", IntKind), Metric("used", IntKind)];
      var rec := Record(t, map["free" := IntValue(500), "used" := IntValue(1500)]);
      GroupLog("line", metrics, [rec], t - 60, t + 60, unixtime) ==
        FieldLog("line", ["created", "free", "used"],
                 [[JInt(unixtime(t)), JInt(500), JInt(1500)]])
  {
    var metrics := [Metric("free", IntKind), Metric("used", IntKind)];
    var rec := Record(t, map["free" := IntValue(500), "used" := IntValue(1500)]);
    assert Query([rec], t - 60, t + 60) == [rec];
    assert Legends(metrics) == ["created", "free", "used"];
    assert Row(rec, metrics, unixtime) == [JInt(unixtime(t)), JInt(500), JInt(1500)];
  }

  /** The logs of every field group of a plugin. */
  function PluginLogs(p: Plugin, gte: Time, lte: Time, env: Env): (logs: map<string, FieldLog>)
    reads p
    requires p.HasModelPerGroup()
    ensures logs.Keys == p.fields.Keys
    ensures forall k :: k in logs ==> logs[k].hint == p.RenderHint(k)
  {
    map k | k in p.fields ::
      GroupLog(p.RenderHint(k), p.fields[k].items, env.store(p.models[k]), gte, lte, env.unixtime)
  }

  // ---------------------------------------------------------------------
  // Responses

  function FieldLogJson(f: FieldLog): Json {
    JObject(map[
      "type" := JStr(f.hint),
      "legends" := JList(seq(|f.legends|, i requires 0 <= i < |f.legends| => JStr(f.legends[i]))),
      "data" := JList(seq(|f.data|, i requires 0 <= i < |f.data| => JList(f.data[i])))])
  }

  function LogsJson(logs: map<string, FieldLog>): Json {
    JObject(map k | k in logs :: FieldLogJson(logs[k]))
  }

  /** The `disk` plugin with one field group `usage` of two integer
      metrics, as its `init` hook declares it. */
  function DiskPlugin(): PluginClass {
    PluginClass("disk", "Disk usage", 0, 1,
                map["usage" := [Metric("free", IntKind), Metric("used", IntKind)]], map[], Overridden(true))
  }

  /** What construction gives the `disk` plugin: the frozen `usage` group,
      its `Disk_usage` model and the default render hint. */
  lemma DiskPluginBuilt(p: Plugin)
    requires p.Built(DiskPlugin())
    ensures var metrics := [Metric("free", IntKind), Metric("used", IntKind)];
      && p.fields == map["usage" := Tuple(metrics)]
      && p.models == map["usage" := Model("Disk_usage", metrics)]
      && p.RenderHint("usage") == "line"
  {
    var metrics := [Metric("free", IntKind), Metric("used", IntKind)];
    assert PyStr.Title("disk") == "Disk";
    assert ModelName("disk", "usage") == "Disk_usage";
    assert p.fields == map["usage" := Tuple(metrics)];
  }

  /** The JSON form of the `usage` entry of the scenario. */
  lemma DiskUsageJson(u: int)
    ensures FieldLogJson(FieldLog("line", ["created", "free", "used"], [[JInt(u), JInt(500), JInt(1500)]])) ==
      JObject(map[
        "type" := JStr("line"),
        "legends" := JList([JStr("created"), JStr("free"), JStr("used")]),
        "data" := JList([JList([JInt(u), JInt(500), JInt(1500)])])])
  {
    var f := FieldLog("line", ["created", "free", "used"], [[JInt(u), JInt(500), JInt(1500)]]);
    assert seq(|f.legends|, i requires 0 <= i < |f.legends| => JStr(f.legends[i])) ==
           [JStr("created"), JStr("free"), JStr("used")];
    assert seq(|f.data|, i requires 0 <= i < |f.data| => JList(f.data[i])) ==
           [JList([JInt(u), JInt(500), JInt(1500)])];
  }

  /** A freshly built `disk` plugin whose `Disk_usage` model holds one
      sample at t answers `get_plugin_logs` one minute either side of t
      with `{'usage': {'type': 'line', 'legends': [...], 'data': [row]}}`. */
  lemma DiskPluginLogs(p: Plugin, t: Time, env: Env)
    requires p.Built(DiskPlugin())
    requires env.store(Model("Disk_usage", [Metric("free", IntKind), Metric("used", IntKind)])) ==
             [Record(t, map["free" := IntValue(500), "used" := IntValue(1500)])]
    ensures LogsJson(PluginLogs(p, t - 60, t + 60, env)) ==
      JObject(map["usage" := JObject(map[
        "type" := JStr("line"),
        "legends" := JList([JStr("created"), JStr("free"), JStr("used")]),
        "data" := JList([JList([JInt(env.unixtime(t)), JInt(500), JInt(1500)])])])])
  {
    DiskPluginBuilt(p);
    DiskUsageScenario(t, env.unixtime);
    DiskUsageJson(env.unixtime(t));
    var f := FieldLog("line", ["created", "free", "used"], [[JInt(env.unixtime(t)), JInt(500), JInt(1500)]]);
    assert PluginLogs(p, t - 60, t + 60, env) == map["usage" := f];
  }

  function OptionalBool(b: Option<bool>): Json {
    if b.Some? then JBool(b.value) else JNull
  }

  /** The details `get_plugin_list` gives for one plugin. */
  function Summary(p: Plugin, unixtime: Time -> int): map<string, Json>
    reads p
  {
    map[
      "description" := JStr(p.description),
      "every" := JInt(p.every),
      "lastExecutedAt" := if p.lastExecutedAt.Some? then JInt(unixtime(p.lastExecutedAt.value)) else JNull,
      "lastExecutedResult" := OptionalBool(p.lastExecutedResult)]
  }

  /** A plugin's details: its description and interval, its last execution
      time as a Unix time or None exactly when it never ran, and its last
      result copied as it is. */
  lemma SummaryShape(p: Plugin, unixtime: Time -> int)
    ensures var d := Summary(p, unixtime);
      && d.Keys == {"description", "every", "lastExecutedAt", "lastExecutedResult"}
      && d["description"] == JStr(p.description) && d["every"] == JInt(p.every)
      && (d["lastExecutedAt"] == JNull <==> p.lastExecutedAt.None?)
      && (p.lastExecutedAt.Some? ==> d["lastExecutedAt"] == JInt(unixtime(p.lastExecutedAt.value)))
      && (d["lastExecutedResult"] == JNull <==> p.lastExecutedResult.None?)
      && (p.lastExecutedResult.Some? ==> d["lastExecutedResult"] == JBool(p.lastExecutedResult.value))
  {
  }

  /** `{plugin.name: plugin for plugin in plugins}`: later plugins replace
      earlier ones of the same name. */
  function IndexByName(ps: seq<Plugin>): (m: map<string, Plugin>)
    ensures m.Keys == set p | p in ps :: p.name
    ensures forall n :: n in m ==> m[n] in ps && m[n].name == n
  {
    if ps == [] then map[]
    else
      var last := ps[|ps| - 1];
      var m' := IndexByName(ps[..|ps| - 1]);
      m'[last.name := last]
  }

  /** A plugin with no later namesake is the one the handler keeps. */
  lemma {:induction false} IndexByNameLastWins(ps: seq<Plugin>, i: nat)
    requires i < |ps|
    requires forall j :: i < j < |ps| ==> ps[j].name != ps[i].name
    ensures ps[i].name in IndexByName(ps) && IndexByName(ps)[ps[i].name] == ps[i]
  {
    if i < |ps| - 1 {
      var init := ps[..|ps| - 1];
      IndexByNameLastWins(init, i);
    }
  }

  /** `details['data'] = logs` on a plugin's details. */
  function WithLogs(details: Json, logs: map<string, FieldLog>): Json
    requires details.JObject?
  {
    JObject(details.members["data" := LogsJson(logs)])
  }

  /** A plugin's details with its logs added under 'data'. */
  function PluginEntry(p: Plugin, gte: Time, lte: Time, env: Env): Json
    reads p
    requires p.HasModelPerGroup()
  {
    WithLogs(JObject(Summary(p, env.unixtime)), PluginLogs(p, gte, lte, env))
  }

  /** An entry holds the plugin's details and its logs under 'data'. */
  lemma PluginEntryShape(p: Plugin, gte: Time, lte: Time, env: Env)
    requires p.HasModelPerGroup()
    ensures var entry := PluginEntry(p, gte, lte, env);
      && entry.JObject?
      && entry.members.Keys == {"description", "every", "lastExecutedAt", "lastExecutedResult", "data"}
      && entry.members["data"] == LogsJson(PluginLogs(p, gte, lte, env))
      && forall k :: k in Summary(p, env.unixtime) ==> entry.members[k] == Summary(p, env.unixtime)[k]
  {
    SummaryShape(p, env.unixtime);
  }

  /** A plugin's details with its logs added is its entry. */
  lemma EntryFromDetails(p: Plugin, details: Json, gte: Time, lte: Time, env: Env)
    requires p.HasModelPerGroup()
    requires details == JObject(Summary(p, env.unixtime))
    ensures WithLogs(details, PluginLogs(p, gte, lte, env)) == PluginEntry(p, gte, lte, env)
  {
  }

  class Handler {
    const plugins: map<string, Plugin>

    constructor (ps: seq<Plugin>)
      ensures plugins == IndexByName(ps)
      ensures plugins.Keys == set p | p in ps :: p.name
      ensures (forall p :: p in ps ==> p.HasModelPerGroup()) ==> Valid()
    {
      plugins := IndexByName(ps);
    }

    ghost predicate Valid()
      reads plugins.Values
    {
      forall n :: n in plugins ==> plugins[n].HasModelPerGroup()
    }

    /** `plugin_required`: the response given instead of running the
        handler, when the requested plugin is unknown. */
    function PluginRequired(name: Option<string>): (r: Option<Json>)
      ensures r.Some? <==> name.None? || name.value !in plugins
      ensures r.Some? ==> r.value == RaiseError(PluginMissing)
    {
      if name.None? || name.value !in plugins then Some(RaiseError(PluginMissing)) else None
    }

    /** `raise_error`: the `{'ok': False, 'reason': reason}` envelope. */
    static function RaiseError(reason: string): (j: Json)
      ensures j.JObject? && j.members.Keys == {"ok", "reason"}
      ensures j.members["ok"] == JBool(false) && j.members["reason"] == JStr(reason)
    {
      JObject(map["ok" := JBool(false), "reason" := JStr(reason)])
    }

    /** Python truthiness of a query argument: present and non-empty. */
    static predicate Given(arg: Option<string>) {
      arg.Some? && arg.value != ""
    }

    /** `parse_comptarget`: a missing or empty bound takes its default (a
        week ago, now); if an explicit bound fails to parse both are None. */
    static function ParseComptarget(gteArg: Option<string>, lteArg: Option<string>, env: Env): (w: Window)
      ensures w.gte.None? <==> w.lte.None?
      ensures w.gte.None? <==>
        (Given(gteArg) && env.parse(gteArg.value).None?) || (Given(lteArg) && env.parse(lteArg.value).None?)
      ensures w.gte.Some? ==>
        w.gte.value == if Given(gteArg) then env.parse(gteArg.value).value else env.weekAgo
      ensures w.lte.Some? ==>
        w.lte.value == if Given(lteArg) then env.parse(lteArg.value).value else env.now
    {
      var gte := if Given(gteArg) then env.parse(gteArg.value) else Some(env.weekAgo);
      if gte.None? then Window(None, None)
      else
        var lte := if Given(lteArg) then env.parse(lteArg.value) else Some(env.now);
        if lte.None? then Window(None, None) else Window(gte, lte)
    }

    /** `get_plugin_list`. */
    function GetPluginList(withdetails: bool, unixtime: Time -> int): (r: PluginList)
      reads plugins.Values
      ensures r.Details? <==> withdetails
      ensures r.Names? ==> r.names == plugins.Keys
      ensures r.Details? ==> r.details.Keys == plugins.Keys
      ensures r.Details? ==> forall n :: n in r.details ==> r.details[n] == JObject(Summary(plugins[n], unixtime))
    {
      if withdetails then Details(map n | n in plugins :: JObject(Summary(plugins[n], unixtime)))
      else Names(plugins.Keys)
    }

    /** `plugin_list_handler`. */
    function PluginListHandler(unixtime: Time -> int): (resp: Json)
      reads plugins.Values
      ensures resp.JObject? && resp.members.Keys == plugins.Keys
      ensures forall n :: n in plugins ==> resp.members[n] == JObject(Summary(plugins[n], unixtime))
    {
      JObject(GetPluginList(true, unixtime).details)
    }

    /** `get_plugin_logs`: KeyError for an unknown plugin, otherwise one
        entry per field group of the plugin. */
    method GetPluginLogs(name: string, gte: Time, lte: Time, env: Env) returns (r: Result<map<string, FieldLog>>)
      requires Valid()
      ensures name !in plugins <==> r.Failure?
      ensures name !in plugins ==> r == Failure(KeyError(PluginMissing))
      ensures name in plugins ==> r == Success(PluginLogs(plugins[name], gte, lte, env))
    {
      if name !in plugins {
        return Failure(KeyError(PluginMissing));
      }
      var data: map<string, FieldLog> := map[];
      var plugin := plugins[name];
      assert plugin.HasModelPerGroup();
      var pending := plugin.fields.Keys;
      while pending != {}
        invariant pending <= plugin.fields.Keys
        invariant data.Keys == plugin.fields.Keys - pending
        invariant forall k :: k in data ==>
          data[k] == GroupLog(plugin.RenderHint(k), plugin.fields[k].items, env.store(plugin.models[k]), gte, lte, env.unixtime)
        decreases pending
      {
        var k :| k in pending;
        var v := plugin.fields[k].items;
        var records := Query(env.store(plugin.models[k]), gte, lte);
        var rows: seq<seq<Json>> := [];
        var i := 0;
        while i < |records|
          invariant 0 <= i <= |records|
          invariant |rows| == i
          invariant forall t :: 0 <= t < i ==> rows[t] == Row(records[t], v, env.unixtime)
        {
          var record := records[i];
          var items := [JInt(env.unixtime(record.createdAt))];
          var j := 0;
          while j < |v|
            invariant 0 <= j <= |v|
            invariant |items| == j + 1 && items[0] == JInt(env.unixtime(record.createdAt))
            invariant forall t :: 0 <= t < j ==> items[t + 1] == Cell(record, v[t].name)
          {
            items := items + [Cell(record, v[j].name)];
            j := j + 1;
          }
          assert items == Row(record, v, env.unixtime);
          rows := rows + [items];
          i := i + 1;
        }
        assert rows == Rows(records, v, env.unixtime);
        data := data[k := FieldLog(plugin.RenderHint(k), ["created"] + MetricNames(v), rows)];
        pending := pending - {k};
      }
      assert data == PluginLogs(plugin, gte, lte, env);
      r := Success(data);
    }

    /** `plugin_handler`: unknown plugin, then unparsable window, then the
        plugin's details together with its name and logs. */
    method PluginHandler(req: Request, env: Env) returns (resp: Json)
      requires Valid()
      ensures req.name.None? || req.name.value !in plugins ==> resp == RaiseError(PluginMissing)
      ensures req.name.Some? && req.name.value in plugins ==>
        var w := ParseComptarget(req.gte, req.lte, env);
        var p := plugins[req.name.value];
        if w.gte.None? || w.lte.None? then resp == RaiseError(UnparsableDatetime)
        else resp == JObject(map["name" := JStr(req.name.value),
                                 "data" := LogsJson(PluginLogs(p, w.gte.value, w.lte.value, env))]
                             + Summary(p, env.unixtime))
    {
      var missing := PluginRequired(req.name);
      if missing.Some? {
        return missing.value;
      }
      var w := ParseComptarget(req.gte, req.lte, env);
      if w.gte.None? || w.lte.None? {
        return RaiseError(UnparsableDatetime);
      }
      var name := req.name.value;
      var plugin := GetPluginList(true, env.unixtime).details[name];
      var logs := GetPluginLogs(name, w.gte.value, w.lte.value, env);
      var data := map["name" := JStr(name), "data" := LogsJson(logs.value)];
      resp := JObject(data + plugin.members);
    }

    /** The loop of `plugins_handler`: each plugin's entry of `details`
        with the plugin's logs added under 'data'. */
    method CollectPluginLogs(details: map<string, Json>, gte: Time, lte: Time, env: Env)
      returns (all: map<string, Json>)
      requires Valid()
      requires details.Keys == plugins.Keys
      requires forall n :: n in details ==> details[n].JObject?
      ensures all.Keys == plugins.Keys
      ensures forall n :: n in all ==> all[n] == WithLogs(details[n], PluginLogs(plugins[n], gte, lte, env))
    {
      all := map[];
      var pending := details.Keys;
      while pending != {}
        invariant pending <= details.Keys
        invariant all.Keys == details.Keys - pending
        invariant forall n :: n in all ==> all[n] == WithLogs(details[n], PluginLogs(plugins[n], gte, lte, env))
        decreases pending
      {
        var n :| n in pending;
        var logs := GetPluginLogs(n, gte, lte, env);
        all := all[n := WithLogs(details[n], logs.value)];
        pending := pending - {n};
      }
    }

    /** `plugins_handler`: unparsable window, or every plugin's details and logs. */
    method PluginsHandler(req: Request, env: Env) returns (resp: Json)
      requires Valid()
      ensures var w := ParseComptarget(req.gte, req.lte, env);
        if w.gte.None? || w.lte.None? then resp == RaiseError(UnparsableDatetime)
        else
          && resp.JObject? && resp.members.Keys == {"data"}
          && resp.members["data"].JObject?
          && resp.members["data"].members.Keys == plugins.Keys
          && forall n :: n in plugins ==>
               resp.members["data"].members[n] == PluginEntry(plugins[n], w.gte.value, w.lte.value, env)
    {
      var w := ParseComptarget(req.gte, req.lte, env);
      if w.gte.None? || w.lte.None? {
        return RaiseError(UnparsableDatetime);
      }
      var details := GetPluginList(true, env.unixtime).details;
      var data := CollectPluginLogs(details, w.gte.value, w.lte.value, env);
      forall n | n in data
        ensures data[n] == PluginEntry(plugins[n], w.gte.value, w.lte.value, env)
      {
        EntryFromDetails(plugins[n], details[n], w.gte.value, w.lte.value, env);
      }
      resp := JObject(map["data" := JObject(data)]);
    }
  }
}
