# harpseal core, modelled in Dafny

harpseal is a small monitoring server. Plugins sample metrics on a fixed
cycle. Each sample is stored in one model per field group. A web layer
serves each plugin's metadata and its samples as chart rows within a time
window. This project models the two sequential parts of that system and
proves what they promise.

- **Plugins** (`plugin.dfy`, from `harpseal/plugin.py`). The `Plugin` class
  runs its subclass `init` hook. It freezes each field group's metric list
  into a tuple and builds one model per group, named
  `'<name.title()>_<group>'`. `data_form`, `properties` and the default
  `provider` follow. `execute` is the run-state machine over
  `last_executed_at` and `last_executed_result`. The host-side
  `PluginMixin` class owns the `plugin_mixin_assert` guard,
  `register_plugins` and `run_plugins`.
- **Handlers** (`handler.dfy`, from `harpseal/web/handler.py`). The
  `Handler` class indexes plugins by name. It resolves the `gte`/`lte`
  window, projects plugin metadata, and turns the stored records of each
  field group into a legend list and rows. It wraps these results in the
  responses of the three handlers, or in the `{'ok': False, 'reason': ...}`
  error envelope.
- `pystr.dfy` models Python's `str.title` over ASCII letters only, which the model
  names depend on. `common.dfy` holds the shared Option/Result types, the
  Python exceptions, metric values and the JSON value shape.

The collaborators outside the core are parameters:
- `datetime.now()` and `dtutils.ago(days=7)` are the `now` and `weekAgo`
  fields of `Env`.
- `dtutils.parse` is `Env.parse`; a result of `None` stands for "raised"
  (see "Left out").
- `dtutils.unixtime` is `Env.unixtime`.
- The records a model holds are `Env.store(model)`, in the store's order.
  The `objects(created_at__gte=…, created_at__lte=…)` query over them is
  `Query`, an assumed semantics of the store (see "Left out").
- A provider's behaviour is a function of the run state it observes
  (`RunState -> Outcome`).
- Importing a plugin module is a resolver, `string -> Option<PluginClass>`.

Python dicts in responses are `map`s inside a `Json` value, and `Response(...)`
is the identity.

## Model

| member | source | states |
|---|---|---|
| PyStr.TitleFrom | harpseal/plugin.py:83 | `str.title` keeps the length and which characters are letters; each letter is upper-cased when it starts a word and lower-cased otherwise |
| PyStr.Title | harpseal/plugin.py:83 | title-casing keeps the length of the plugin name |
| PyStr.TitleWordShape | harpseal/plugin.py:83 | the first letter of a word is never lower-case; a later letter is never upper-case |
| Plugins.ModelName | harpseal/plugin.py:83 | a model name is the title-cased plugin name, `_`, then the group, so its length is their sum plus one |
| Plugins.ModelNameInjective | harpseal/plugin.py:81-84 | two groups of one plugin never get the same model name |
| Plugins.InheritedProvider | harpseal/plugin.py:118-121 | the base `provider` always raises NotImplementedError `.provider() must be overridden.` |
| Plugins.InheritedProviderFails | harpseal/plugin.py:97-104 | running a plugin that keeps the base provider always ends in the raise branch, whatever the run state |
| Plugins.Plugin.constructor | harpseal/plugin.py:62-79 | the new plugin has the class attributes, one group per group the `init` hook declared, each frozen into a tuple of its declared metrics, the declared render hints, one model per group named `'<Title>_<group>'` over that group's metrics, and no run state |
| Plugins.Plugin.FreezeFields | harpseal/plugin.py:72-73 | every field group keeps its metrics, in order, and becomes a tuple; no group is added or removed |
| Plugins.Plugin.InitModel | harpseal/plugin.py:81-84 | afterwards every group has a model named after the plugin and the group, built from the group's metrics; models of other keys stay as they were |
| Plugins.Plugin.RenderHint | harpseal/plugin.py:67-68 | a group's render hint is the one set by `init`, or `'line'` when none was set |
| Plugins.Plugin.DataForm | harpseal/plugin.py:86-90 | one new container per declared field group, each with that group's metric tuple as schema |
| Plugins.Plugin.DataFormMatchesModels | harpseal/plugin.py:81-90 | on a constructed plugin, `data_form` has a container for exactly the groups that have models, with the same metrics as the model |
| Plugins.Plugin.Execute | harpseal/plugin.py:92-108 | a non-coroutine provider raises TypeError with the run state untouched. Otherwise the time is stamped before the provider runs (the provider observes it). The result is False if the provider raised and True if it returned, even `None`. The pair is `(self, None)` or `(self, data)` with `data` unchanged. A plugin that keeps the base provider always records False and returns `(self, None)`. The schema invariant is kept |
| Plugins.Plugin.Properties | harpseal/plugin.py:123-134 | ValueError exactly when name or description is empty; otherwise exactly the keys name, description, priority and every, with their values |
| Plugins.MixinAssert | harpseal/plugin.py:137-146 | the guard passes exactly when the class is `Harpseal` and `plugins` is a tuple. The class check comes first (AssertionError), then the tuple check (TypeError) |
| Plugins.FirstUnresolved | harpseal/plugin.py:154-161 | the position of the first configured name that fails to import: all earlier names import and that one does not |
| Plugins.TasksFor | harpseal/plugin.py:171-174 | one task per plugin, in plugin order |
| Plugins.Invoke | harpseal/plugin.py:98-104 | one call of the plugin's provider: the base provider when it is not overridden, the subclass's otherwise (see InheritedProviderFails and Plugin.Execute) |
| Plugins.ModuleName | harpseal/plugin.py:155 | the module a configured plugin name is imported from, `harpseal.plugins.<name>` (see RegisterPlugins) |
| Plugins.ImportFailure | harpseal/plugin.py:160 | the RuntimeWarning raised for a plugin whose module cannot be imported (see RegisterPlugins) |
| Plugins.PluginMixin.RegisterPlugins | harpseal/plugin.py:149-166 | a failed guard changes nothing. Otherwise one fresh instance per configured name is appended, in config order, each built from its class. The earlier plugins are kept. The append stops at the first name that fails to import, with RuntimeWarning `Cannot load harpseal.plugins.<name> plugin due to import error.` |
| Plugins.PluginMixin.RunPlugins | harpseal/plugin.py:168-174 | a failed guard changes nothing; otherwise exactly one task per plugin is appended, in plugin order |
| Common.ValueJson | harpseal/web/handler.py:87 | a stored value is served as the number it is: an int as the one JSON int encoding, a float as a float |
| Handlers.Query | harpseal/web/handler.py:82-83 | the store query returns no more records than the store holds, and only records with `gte <= created_at <= lte` |
| Handlers.InRange | harpseal/web/handler.py:82-83 | the inclusive window test `gte <= created_at <= lte` (see Query, QueryMembership) |
| Handlers.QueryAppend | harpseal/web/handler.py:82-83 | the query keeps store order: it distributes over concatenation |
| Handlers.QueryCount | harpseal/web/handler.py:82-83 | each record in the window occurs exactly as often as in the store (none dropped, none duplicated); records outside it do not occur |
| Handlers.QueryMembership | harpseal/web/handler.py:82-83 | a record is returned iff it is stored and lies in the inclusive window |
| Handlers.MetricNames | harpseal/web/handler.py:79 | the metric names of a group, in declaration order |
| Handlers.Cell | harpseal/web/handler.py:87 | `getattr(record.items, n)`: the stored value of the metric, or None (see RowShape) |
| Handlers.Legends | harpseal/web/handler.py:79 | `['created']` followed by the metric names (see GroupLogShape) |
| Handlers.Row | harpseal/web/handler.py:84-87 | one chart row of a record (see RowShape) |
| Handlers.Rows | harpseal/web/handler.py:84-88 | one row per record, in record order (see RowsAppend, GroupLogShape) |
| Handlers.GroupLog | harpseal/web/handler.py:76-89 | the entry of one field group: its hint, legends and rows over the windowed records; `Handler.GetPluginLogs`'s loops are proved to build it (see GroupLogShape, GroupLogRowsInStoreOrder, GroupLogOfOneRecord) |
| Handlers.RowShape | harpseal/web/handler.py:84-87 | a row is as long as the legends, starts with `unixtime(created_at)`, and holds each metric's value under that metric's legend |
| Handlers.GroupLogShape | harpseal/web/handler.py:76-89 | an entry carries the render hint; legends are `'created'` then the metric names in order; there is one row per record in the window; each row lines up with the legends |
| Handlers.RowsAppend | harpseal/web/handler.py:84-88 | rows of consecutive runs of records are the rows of each run, in order |
| Handlers.GroupLogRowsInStoreOrder | harpseal/web/handler.py:82-88 | the rows follow the store's order: a split store gives the rows of the first part, then those of the second |
| Handlers.GroupLogOfOneRecord | harpseal/web/handler.py:82-88 | a single stored record gives one row exactly when it is in the window, and none otherwise |
| Handlers.DiskUsageScenario | harpseal/web/handler.py:76-89 | a concrete sample (free 500, used 1500) queried one minute either side gives legends `created, free, used` and exactly the row `[unixtime(t), 500, 1500]` |
| Handlers.DiskPluginBuilt | harpseal/plugin.py:62-84 | building the `disk` plugin freezes its `usage` group, names its model `Disk_usage` and leaves the render hint at `'line'` |
| Handlers.DiskUsageJson | harpseal/web/handler.py:77-81 | the scenario's `usage` entry is served as `{'type': 'line', 'legends': ['created', 'free', 'used'], 'data': [[u, 500, 1500]]}` |
| Handlers.DiskPluginLogs | harpseal/web/handler.py:74-91 | a built `disk` plugin with one stored sample answers `get_plugin_logs` with exactly `{'usage': {'type': 'line', 'legends': ['created', 'free', 'used'], 'data': [[unixtime(t), 500, 1500]]}}` |
| Handlers.PluginLogs | harpseal/web/handler.py:74-91 | one entry per field group of the plugin, each typed with the group's render hint |
| Handlers.Summary | harpseal/web/handler.py:53-59 | the details of one plugin (see SummaryShape) |
| Handlers.OptionalBool | harpseal/web/handler.py:58 | the last result as a JSON bool, or None when the plugin never ran (see SummaryShape) |
| Handlers.FieldLogJson | harpseal/web/handler.py:77-81 | an entry as the dict `{'type', 'legends', 'data'}` (see DiskUsageJson, DiskPluginLogs) |
| Handlers.LogsJson | harpseal/web/handler.py:89 | the logs as a dict from group name to entry (see DiskPluginLogs, PluginEntryShape) |
| Handlers.SummaryShape | harpseal/web/handler.py:53-59 | the details of a plugin have exactly the keys description, every, lastExecutedAt and lastExecutedResult. `lastExecutedAt` is None exactly when the plugin never ran, and `unixtime` of the time otherwise. `lastExecutedResult` is copied unchanged |
| Handlers.IndexByName | harpseal/web/handler.py:28 | the handler's plugin map has exactly the names of the given plugins as keys, each mapped to a given plugin of that name |
| Handlers.IndexByNameLastWins | harpseal/web/handler.py:28 | with duplicate names, the later plugin wins |
| Handlers.WithLogs | harpseal/web/handler.py:127-128 | `details['data'] = logs` on a plugin's details (see Handler.CollectPluginLogs, EntryFromDetails) |
| Handlers.PluginEntry | harpseal/web/handler.py:126-128 | a plugin's entry in `plugins_handler` (see PluginEntryShape, Handler.PluginsHandler) |
| Handlers.PluginEntryShape | harpseal/web/handler.py:126-128 | a plugin's entry in `plugins_handler` is its four detail keys, copied from the details, plus `data` holding its logs |
| Handlers.EntryFromDetails | harpseal/web/handler.py:126-128 | adding a plugin's logs to the details `get_plugin_list` gives for it yields that plugin's entry |
| Handlers.Handler.constructor | harpseal/web/handler.py:27-28 | the plugin map is the by-name index of the given plugins; when every given plugin has one model per field group (as construction leaves it), the handler's invariant holds |
| Handlers.Handler.PluginRequired | harpseal/web/handler.py:14-21 | the `Plugin does not exist.` envelope is returned instead of running the handler exactly when the route name is missing or unknown |
| Handlers.Handler.RaiseError | harpseal/web/handler.py:30-36 | the error envelope has exactly the keys ok (False) and reason (the given reason) |
| Handlers.Handler.Given | harpseal/web/handler.py:42-43 | Python truthiness of a query argument: present and non-empty (see ParseComptarget) |
| Handlers.Handler.ParseComptarget | harpseal/web/handler.py:38-46 | both bounds are None together, and exactly when an explicit (non-empty) bound fails to parse. Otherwise a missing or empty `gte` is a week ago and a missing or empty `lte` is now; given bounds are their parsed values |
| Handlers.Handler.GetPluginList | harpseal/web/handler.py:48-62 | without details, the plugin names; with details, a map keyed by exactly the plugin names, each value being that plugin's details |
| Handlers.Handler.PluginListHandler | harpseal/web/handler.py:93-96 | the response is keyed by exactly the plugin names, each value being that plugin's details (description, every, lastExecutedAt, lastExecutedResult) |
| Handlers.Handler.GetPluginLogs | harpseal/web/handler.py:64-91 | KeyError `Plugin does not exist.` exactly when the plugin is unknown. Otherwise the nested loops build exactly `PluginLogs`: one entry per group, with the hint, the legends, and one row per windowed record |
| Handlers.Handler.PluginHandler | harpseal/web/handler.py:98-115 | an unknown plugin gives the missing-plugin envelope; an unparsable window gives the datetime envelope. Otherwise the response holds `name`, the plugin's logs under `data`, and its details merged on top |
| Handlers.Handler.CollectPluginLogs | harpseal/web/handler.py:124-128 | the loop gives every plugin its details entry with that plugin's logs added under `data`, and nothing else |
| Handlers.Handler.PluginsHandler | harpseal/web/handler.py:117-130 | an unparsable window gives the datetime envelope without fetching logs. Otherwise the response is `{'data': ...}` keyed by exactly the plugin names, each value being that plugin's details with its logs under `data` |

## Left out

- `Plugin.call` (harpseal/plugin.py:111-116) runs shell commands on the event loop. It is I/O and is not modelled.
- asyncio is not modelled: the coroutine machinery, `PeriodicTask` timing and `task.start()`. `execute` is one sequential step, and a task is only the record of its plugin.
- `StrictDict` and `make_model` are opaque: a container and a model are recorded only by their name and metric tuple. No type-checking on `set` is claimed.
- `dtutils.ago` and `unixtime` and `datetime.now()` are parameters (see above); nothing is assumed about them.
- Handlers.Handler.ParseComptarget: `dtutils.parse` is assumed to signal failure only by raising, never by returning None. `Env.parse` giving None stands for the raise, so both bounds become None together. A `parse` that returned None for `gte` without raising would make the source return `(None, lte)`; the model does not cover that case.
- Handlers.Query: the store query is not a parameter. The model assumes mongoengine's `created_at__gte`/`created_at__lte` semantics. Both bounds are inclusive, and the query returns each stored record of the model at most once (as often as it is stored). Results come in the store's fixed order, whatever the window. `QueryAppend`, `QueryCount` and `QueryMembership` are facts about this assumed semantics, not about harpseal's code. What the handler itself guarantees is that it builds one row per returned record, in order (`GroupLogShape`, `Handler.GetPluginLogs`).
- PyStr.TitleFrom: only the ASCII letters `a`-`z` and `A`-`Z` are cased. Every other character counts as uncased and is left as it is, so non-ASCII casing is not reproduced. Python gives `'é'.title() == 'É'`, but the model keeps `'é'`.
- PyStr.Title: Unicode title mappings that change the length (`'ß'` gives `'Ss'`, `'ŉ'` gives `'ʼN'`) are not reproduced. The length fact holds for ASCII names only.
- Plugins.ModelName: its length fact `|name| + 1 + |group|` holds for ASCII plugin names only, for the same reason.
- The `print` warning for a provider that returns `None` is not modelled; only its effect on the state (result True) is.
- Float metric values are opaque (`FloatValue`); nothing computes with them.
- Plugins.Plugin.RenderHint: a `defaultdict` read of a missing render hint also inserts `'line'` into `field_types`; the model returns `'line'` without inserting it.
- Plugins.Plugin.constructor: the `fields` `defaultdict` factory is not modelled; an `init` hook is represented only by the groups and hints it leaves behind.
- Python dict order is not modelled: the result maps are unordered, and the loops pick keys in any order.
- Handlers.Handler.GetPluginLogs: the `lte=None` default of `get_plugin_logs` is not modelled, because both handlers always pass a parsed `lte`.
- Handlers.Cell: reading a metric a record never stored is taken to give None, the embedded document's default.
- Plugins.PluginMixin.RegisterPlugins: an imported module that defines no class (the `IndexError` of `getmembers(...)[0]`) is not modelled. The resolver either yields a class or fails to import.
- The handlers require every plugin to have one model per field group, which plugin construction establishes (`Plugins.Plugin.Built`). A plugin whose `models` was changed afterwards is not modelled.
- `Response(...)` and the aiohttp request object are not modelled: a response is the dict it wraps, and a request is its route name and its `gte`/`lte` arguments.
- harpseal/web/__init__.py and harpseal/web/router.py (server setup, middleware, routing) are not part of this model.
