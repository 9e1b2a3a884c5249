/** The plugin contract (harpseal/plugin.py): a plugin declares field groups
    of typed metrics, is frozen at construction, and records the time and
    outcome of every execution of its provider. The host mixin turns the
    configured plugin names into instances and periodic tasks. */
module Plugins {
  import opened Common
  import PyStr

  /** The declared numeric type of a metric: `int` or `float`. */
  datatype Kind = IntKind | FloatKind

  datatype Metric = Metric(name: string, kind: Kind)

  /** A field group's metric declarations: the list the `init` hook fills,
      or the tuple the constructor freezes it into. */
  datatype MetricList = List(items: seq<Metric>) | Tuple(items: seq<Metric>)

  /** The arguments `make_model(modelname, fields)` was called with; the
      generated model class is not part of this model. */
  datatype Model = Model(modelName: string, fields: seq<Metric>)

  /** A `StrictDict(fields)`, recorded by the metric tuple it was built from. */
  datatype Container = StrictDict(schema: seq<Metric>)

  /** Whether a plugin class keeps the inherited `provider` or overrides it,
      and if so whether the override is a coroutine function. */
  datatype ProviderKind = Inherited | Overridden(isCoroutine: bool)

  /** A plugin subclass: its class attributes, what its `init` hook puts into
      `fields` and `field_types`, and its provider. */
  datatype PluginClass = PluginClass(
    name: string,
    description: string,
    priority: int,
    every: int,
    declaredFields: map<string, seq<Metric>>,
    declaredTypes: map<string, string>,
    provider: ProviderKind)

  /** The run state a provider can observe while it runs. */
  datatype RunState = RunState(lastExecutedAt: Option<Time>, lastExecutedResult: Option<bool>)

  /** What one call of a provider does: raise, or return a value (possibly None). */
  datatype Outcome<+D> = Raised(error: Exception) | Returned(data: Option<D>)

  /** What `execute` does: raise before running, or return `(self, data)`. */
  datatype Executed<+D> = ExecuteFailed(error: Exception) | Executed(plugin: Plugin, data: Option<D>)

  const CoroutineRequired := "You must wrap the function with '@asyncio.coroutine' decorator."
  const ProviderNotOverridden := ".provider() must be overridden."
  const IdentityRequired := "You must set the variables for both .name and .description."
  const DefaultRenderHint := "line"

  /** `'{}_{}'.format(name.title(), group)`. */
  function ModelName(pluginName: string, group: string): (n: string)
    ensures |n| == |pluginName| + 1 + |group|
  {
    PyStr.Title(pluginName) + "_" + group
  }

  /** Two field groups of one plugin never share a model name. */
  lemma ModelNameInjective(pluginName: string, g1: string, g2: string)
    requires ModelName(pluginName, g1) == ModelName(pluginName, g2)
    ensures g1 == g2
  {
    var prefix := |pluginName| + 1;
    assert g1 == ModelName(pluginName, g1)[prefix..];
    assert g2 == ModelName(pluginName, g2)[prefix..];
  }

  /** The inherited `provider`: a coroutine that always raises. */
  function InheritedProvider<D>(): (o: Outcome<D>)
    ensures o.Raised? && o.error == NotImplementedError(ProviderNotOverridden)
  {
    Raised(NotImplementedError(ProviderNotOverridden))
  }

  /** One call of the plugin's provider, which sees the run state `observed`;
      `body` is what an overriding provider does. */
  function Invoke<D>(provider: ProviderKind, body: RunState -> Outcome<D>, observed: RunState): Outcome<D> {
    if provider.Inherited? then InheritedProvider() else body(observed)
  }

  /** A plugin that keeps the inherited provider always records a failure. */
  lemma InheritedProviderFails<D>(body: RunState -> Outcome<D>, observed: RunState)
    ensures Invoke(Inherited, body, observed).Raised?
  {
  }

  class Plugin {
    const name: string
    const description: string
    const priority: int
    const every: int
    const provider: ProviderKind

    var models: map<string, Model>
    var fields: map<string, MetricList>
    /** Render hints (line, stack, full-stack, bar); a missing key reads as 'line'. */
    var fieldTypes: map<string, string>
    var lastExecutedAt: Option<Time>
    var lastExecutedResult: Option<bool>

    /** What construction establishes and nothing afterwards changes: every
        field group is frozen and has exactly one model, named after the
        plugin and the group and built from the group's metrics. */
    ghost predicate Valid()
      reads this
    {
      && (forall k :: k in fields ==> fields[k].Tuple?)
      && HasModelPerGroup()
      && (forall k :: k in models ==> models[k] == Model(ModelName(name, k), fields[k].items))
    }

    /** Every field group, and nothing else, has a model. */
    ghost predicate HasModelPerGroup()
      reads this
    {
      models.Keys == fields.Keys
    }

    /** The state of a plugin just built from `cls`. */
    ghost predicate Built(cls: PluginClass)
      reads this
    {
      && name == cls.name && description == cls.description
      && priority == cls.priority && every == cls.every && provider == cls.provider
      && fields.Keys == cls.declaredFields.Keys
      && (forall k :: k in fields ==> fields[k] == Tuple(cls.declaredFields[k]))
      && fieldTypes == cls.declaredTypes
      && lastExecutedAt.None? && lastExecutedResult.None?
      && Valid()
    }

    /** `__init__`: run the `init` hook, freeze every metric list into a
        tuple, build the models, clear the run state. */
    constructor (cls: PluginClass)
      ensures Built(cls)
    {
      name, description, priority, every := cls.name, cls.description, cls.priority, cls.every;
      provider := cls.provider;
      models := map[];
      fields := map k | k in cls.declaredFields :: List(cls.declaredFields[k]);
      fieldTypes := cls.declaredTypes;
      lastExecutedAt, lastExecutedResult := None, None;
      new;
      FreezeFields();
      InitModel();
    }

    /** The loop in `__init__` that turns every metric list into a tuple. */
    method FreezeFields()
      modifies this`fields
      ensures fields.Keys == old(fields).Keys
      ensures forall k :: k in fields ==> fields[k] == Tuple(old(fields)[k].items)
    {
      var pending := fields.Keys;
      while pending != {}
        invariant pending <= fields.Keys == old(fields).Keys
        invariant forall k :: k in pending ==> fields[k] == old(fields)[k]
        invariant forall k :: k in fields && k !in pending ==> fields[k] == Tuple(old(fields)[k].items)
        decreases pending
      {
        var k :| k in pending;
        fields := fields[k := Tuple(fields[k].items)];
        pending := pending - {k};
      }
    }

    /** `init_model`: one model per field group, keyed by the group name. */
    method InitModel()
      modifies this`models
      ensures models.Keys == old(models).Keys + fields.Keys
      ensures forall k :: k in fields ==> models[k] == Model(ModelName(name, k), fields[k].items)
      ensures forall k :: k in old(models) && k !in fields ==> models[k] == old(models)[k]
    {
      var pending := fields.Keys;
      while pending != {}
        invariant pending <= fields.Keys
        invariant models.Keys == old(models).Keys + (fields.Keys - pending)
        invariant forall k :: k in fields && k !in pending ==> models[k] == Model(ModelName(name, k), fields[k].items)
        invariant forall k :: k in old(models) && k !in fields ==> models[k] == old(models)[k]
        decreases pending
      {
        var k :| k in pending;
        models := models[k := Model(ModelName(name, k), fields[k].items)];
        pending := pending - {k};
      }
    }

    /** `field_types[k]`, which falls back to 'line'. */
    function RenderHint(group: string): (hint: string)
      reads this
      ensures group in fieldTypes ==> hint == fieldTypes[group]
      ensures group !in fieldTypes ==> hint == DefaultRenderHint
    {
      if group in fieldTypes then fieldTypes[group] else DefaultRenderHint
    }

    /** `data_form`: a new container per declared field group. */
    function DataForm(): (form: map<string, Container>)
      reads this
      ensures form.Keys == fields.Keys
      ensures forall k :: k in form ==> form[k].schema == fields[k].items
    {
      map k | k in fields :: StrictDict(fields[k].items)
    }

    /** The containers a provider fills have exactly the schema of the models
        their samples are stored in. */
    lemma DataFormMatchesModels()
      requires Valid()
      ensures DataForm().Keys == models.Keys
      ensures forall k :: k in DataForm() ==> DataForm()[k].schema == models[k].fields
    {
    }

    /** `execute`: reject a provider that is not a coroutine, stamp the time,
        run the provider and record whether it raised. */
    method Execute<D>(now: Time, body: RunState -> Outcome<D>) returns (r: Executed<D>)
      modifies this`lastExecutedAt, this`lastExecutedResult
      ensures old(Valid()) ==> Valid()
      ensures provider == Overridden(false) ==>
        && r == ExecuteFailed(TypeError(CoroutineRequired))
        && lastExecutedAt == old(lastExecutedAt)
        && lastExecutedResult == old(lastExecutedResult)
      ensures provider != Overridden(false) ==>
        var outcome := Invoke(provider, body, RunState(Some(now), old(lastExecutedResult)));
        && lastExecutedAt == Some(now)
        && lastExecutedResult == Some(outcome.Returned?)
        && r == Executed(this, if outcome.Returned? then outcome.data else None)
      ensures provider == Inherited ==> lastExecutedResult == Some(false) && r == Executed(this, None)
    {
      if provider == Overridden(false) {
        return ExecuteFailed(TypeError(CoroutineRequired));
      }
      lastExecutedAt := Some(now);
      var outcome := Invoke(provider, body, RunState(lastExecutedAt, lastExecutedResult));
      var data: Option<D>;
      if outcome.Raised? {
        data := None;
        lastExecutedResult := Some(false);
      } else {
        // A provider that returns None only draws a warning.
        data := outcome.data;
        lastExecutedResult := Some(true);
      }
      r := Executed(this, data);
    }

    /** The `properties` property. */
    function Properties(): (r: Result<map<string, Json>>)
      ensures r.Failure? <==> name == "" || description == ""
      ensures r.Failure? ==> r.error == ValueError(IdentityRequired)
      ensures r.Success? ==> r.value.Keys == {"name", "description", "priority", "every"}
      ensures r.Success? ==>
        && r.value["name"] == JStr(name) && r.value["description"] == JStr(description)
        && r.value["priority"] == JInt(priority) && r.value["every"] == JInt(every)
    {
      if name == "" || description == "" then Failure(ValueError(IdentityRequired))
      else Success(map["name" := JStr(name), "description" := JStr(description),
                       "priority" := JInt(priority), "every" := JInt(every)])
    }
  }

  // ---------------------------------------------------------------------
  // The plugin mixin of the host application

  /** A task started for a plugin; its scheduling is not part of this model. */
  datatype Task = PeriodicTask(plugin: Plugin)

  /** The host's `plugins` attribute: missing, not a tuple, or a tuple. */
  datatype PluginsAttr = Missing | NotATuple | TupleOf(items: seq<Plugin>)

  const HostClassName := "Harpseal"
  const HostRequired := "This mixin class must be inherited from 'Harpseal' class."
  const TupleRequired := "The .plugins attribute must be a tuple."

  /** `plugin_mixin_assert`: the exception raised before the guarded method runs, if any. */
  function MixinAssert(className: string, plugins: PluginsAttr): (e: Option<Exception>)
    ensures e.None? <==> className == HostClassName && plugins.TupleOf?
    ensures className != HostClassName ==> e == Some(AssertionError(HostRequired))
    ensures className == HostClassName && !plugins.TupleOf? ==> e == Some(TypeError(TupleRequired))
  {
    if className != HostClassName then Some(AssertionError(HostRequired))
    else if !plugins.TupleOf? then Some(TypeError(TupleRequired))
    else None
  }

  function ModuleName(pluginName: string): string {
    "harpseal.plugins." + pluginName
  }

  function ImportFailure(pluginName: string): Exception {
    RuntimeWarning("Cannot load " + ModuleName(pluginName) + " plugin due to import error.")
  }

  /** The index of the first configured name that cannot be imported, or
      the number of names when all of them can. */
  function FirstUnresolved(names: seq<string>, resolve: string -> Option<PluginClass>): (k: nat)
    ensures k <= |names|
    ensures forall i :: 0 <= i < k ==> resolve(names[i]).Some?
    ensures k < |names| ==> resolve(names[k]).None?
  {
    if names == [] || resolve(names[0]).None? then 0
    else 1 + FirstUnresolved(names[1..], resolve)
  }

  /** One task per plugin, in plugin order. */
  function TasksFor(plugins: seq<Plugin>): (tasks: seq<Task>)
    ensures |tasks| == |plugins|
    ensures forall i :: 0 <= i < |plugins| ==> tasks[i].plugin == plugins[i]
  {
    seq(|plugins|, i requires 0 <= i < |plugins| => PeriodicTask(plugins[i]))
  }

  class PluginMixin {
    const className: string
    /** `config['plugins']`: the configured plugin names, in order. */
    const configuredPlugins: seq<string>
    var plugins: PluginsAttr
    var tasks: seq<Task>

    constructor (className: string, configuredPlugins: seq<string>, plugins: PluginsAttr, tasks: seq<Task>)
      ensures this.className == className && this.configuredPlugins == configuredPlugins
      ensures this.plugins == plugins && this.tasks == tasks
    {
      this.className, this.configuredPlugins := className, configuredPlugins;
      this.plugins, this.tasks := plugins, tasks;
    }

    /** `register_plugins`: append one fresh instance per configured name, in
        order, and stop with a RuntimeWarning at the first name that cannot
        be imported; `resolve` stands for importing the plugin's module and
        picking its class. */
    method RegisterPlugins(resolve: string -> Option<PluginClass>) returns (err: Option<Exception>)
      modifies this`plugins
      ensures MixinAssert(className, old(plugins)).Some? ==>
        err == MixinAssert(className, old(plugins)) && plugins == old(plugins)
      ensures MixinAssert(className, old(plugins)).None? ==>
        var k := FirstUnresolved(configuredPlugins, resolve);
        var before := old(plugins).items;
        && plugins.TupleOf?
        && |plugins.items| == |before| + k
        && plugins.items[..|before|] == before
        && (forall j :: |before| <= j < |plugins.items| ==>
              fresh(plugins.items[j])
              && plugins.items[j].Built(resolve(configuredPlugins[j - |before|]).value))
        && err == (if k < |configuredPlugins| then Some(ImportFailure(configuredPlugins[k])) else None)
    {
      err := MixinAssert(className, plugins);
      if err.Some? {
        return;
      }
      ghost var before := plugins.items;
      ghost var k := FirstUnresolved(configuredPlugins, resolve);
      var i := 0;
      while i < |configuredPlugins|
        invariant 0 <= i <= k
        invariant plugins.TupleOf? && |plugins.items| == |before| + i
        invariant plugins.items[..|before|] == before
        invariant forall j :: |before| <= j < |plugins.items| ==>
          fresh(plugins.items[j])
          && plugins.items[j].Built(resolve(configuredPlugins[j - |before|]).value)
      {
        var cls := resolve(configuredPlugins[i]);
        if cls.None? {
          return Some(ImportFailure(configuredPlugins[i]));
        }
        var instance := new Plugin(cls.value);
        plugins := TupleOf(plugins.items + [instance]);
        i := i + 1;
      }
    }

    /** `run_plugins`: one periodic task per plugin, appended in plugin order. */
    method RunPlugins() returns (err: Option<Exception>)
      modifies this`tasks
      ensures err == MixinAssert(className, plugins)
      ensures err.Some? ==> tasks == old(tasks)
      ensures err.None? ==> tasks == old(tasks) + TasksFor(plugins.items)
    {
      err := MixinAssert(className, plugins);
      if err.Some? {
        return;
      }
      var i := 0;
      while i < |plugins.items|
        invariant 0 <= i <= |plugins.items|
        invariant tasks == old(tasks) + TasksFor(plugins.items[..i])
      {
        assert TasksFor(plugins.items[..i + 1]) == TasksFor(plugins.items[..i]) + [PeriodicTask(plugins.items[i])];
        tasks := tasks + [PeriodicTask(plugins.items[i])];
        i := i + 1;
      }
      assert plugins.items[..i] == plugins.items;
    }
  }
}
