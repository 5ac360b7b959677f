/**
 * `FluenceFaaS`: the facade over the multi-module engine. It loads the
 * modules a config names, remembers the interface of each module it was
 * asked about, and forwards calls with the caller's call parameters.
 *
 * The engine itself (`FCE`) is seen only through what the facade uses: the
 * interface of every loaded module, and two operations given as
 * parameters (load a module, call a function).
 */
module FaaS {
  import opened Wrappers
  import opened InterfaceTypes

  datatype FaaSError =
    | InstantiationError(moduleName: string)
    | NoSuchModule(name: string)
    | MissingFunctionError(name: string)
    | EngineError(message: string)

  /** A function of a loaded module as the engine reports it. */
  datatype FceFunctionSignature = FceFunctionSignature(
    name: string,
    arguments: seq<IFunctionArg>,
    outputs: seq<IType>)

  datatype FceModuleInterface = FceModuleInterface(
    functionSignatures: seq<FceFunctionSignature>,
    recordTypes: RecordTypes)

  /** The engine, by the interfaces of the modules loaded into it. */
  datatype Fce = Fce(modules: map<string, FceModuleInterface>)

  /** A signature without its name. */
  datatype FunctionTypes = FunctionTypes(arguments: seq<IFunctionArg>, outputs: seq<IType>)

  /** A cache entry: a module's signatures by function name, and its record types. */
  datatype ModuleInterface = ModuleInterface(
    functionSignatures: map<string, FunctionTypes>,
    recordTypes: RecordTypes)

  /** What a lookup hands back: argument types, output types, record types. */
  datatype FunctionInterface = FunctionInterface(
    arguments: seq<IFunctionArg>,
    outputs: seq<IType>,
    recordTypes: RecordTypes)

  /** Parameters of the current call, readable by the guest modules; their fields matter only to the guests. */
  datatype CallParameters = CallParameters(values: map<string, string>)

  const DEFAULT_CALL_PARAMETERS: CallParameters := CallParameters(map[])

  /** A module's own settings in the config; they matter only to the engine. */
  datatype FaaSModuleConfig = FaaSModuleConfig(settings: map<string, string>)

  datatype ModuleEntry = ModuleEntry(name: string, config: FaaSModuleConfig)

  /** The already converted config: the modules to load, in order. */
  datatype FaaSConfig = FaaSConfig(modulesConfig: seq<ModuleEntry>)

  /**
   * Building a module's engine config and loading it into the engine
   * (`make_fce_config` then `FCE::load_module`), as one step that may fail.
   */
  datatype Engine = Engine(
    loadModule: (Fce, string, seq<bv8>, FaaSModuleConfig) -> Result<Fce, string>)

  /**
   * `FCE::call`: the engine with the call parameters in force, the module and
   * function names and the arguments, to the call's results or error. A call
   * changes only the guests' memories, which `Fce` does not hold, so the
   * loaded modules' interfaces stay as they were.
   */
  type FceCall = (Fce, CallParameters, string, string, seq<IValue>) -> Result<seq<IValue>, string>

  // ---------------------------------------------------------------------------
  // Loading the configured modules

  /** One module handed to the engine. */
  datatype ModuleLoad = ModuleLoad(name: string, bytes: seq<bv8>, config: FaaSModuleConfig)

  datatype LoadRun = LoadRun(result: Result<Fce, FaaSError>, loads: seq<ModuleLoad>)

  /**
   * The load loop of `with_modules` from `entries` on: each entry's bytes
   * are taken out of `modules` (a name not there is an `InstantiationError`)
   * and loaded; the first error ends the loop.
   */
  function LoadModules(engine: Engine, fce: Fce, modules: map<string, seq<bv8>>, entries: seq<ModuleEntry>): (run: LoadRun)
    ensures |run.loads| <= |entries|
    ensures run.result.Ok? ==> |run.loads| == |entries|
    decreases |entries|
  {
    if entries == [] then LoadRun(Ok(fce), [])
    else
      var entry := entries[0];
      if entry.name !in modules then LoadRun(Err(InstantiationError(entry.name)), [])
      else
        var load := ModuleLoad(entry.name, modules[entry.name], entry.config);
        match engine.loadModule(fce, entry.name, modules[entry.name], entry.config)
        case Err(message) => LoadRun(Err(EngineError(message)), [load])
        case Ok(loaded) =>
          var rest := LoadModules(engine, loaded, modules - {entry.name}, entries[1..]);
          LoadRun(rest.result, [load] + rest.loads)
  }

  /** Every entry names a module of `modules`, and no name comes twice. */
  predicate Available(entries: seq<ModuleEntry>, modules: map<string, seq<bv8>>) {
    && (forall i :: 0 <= i < |entries| ==> entries[i].name in modules)
    && (forall i, j :: 0 <= i < j < |entries| ==> entries[i].name != entries[j].name)
  }

  /** The engine accepts every module. */
  ghost predicate AcceptsAll(engine: Engine) {
    forall fce, name, bytes, config :: engine.loadModule(fce, name, bytes, config).Ok?
  }

  /**
   * Loading succeeds only if every configured module is among `modules`
   * and none is configured twice (its bytes were taken out at the first
   * load); with an engine that accepts every module, that is also enough.
   */
  lemma {:induction false} LoadSucceedsOnlyIfAvailable(
    engine: Engine, fce: Fce, modules: map<string, seq<bv8>>, entries: seq<ModuleEntry>)
    ensures LoadModules(engine, fce, modules, entries).result.Ok? ==> Available(entries, modules)
    ensures AcceptsAll(engine) && Available(entries, modules) ==> LoadModules(engine, fce, modules, entries).result.Ok?
    decreases |entries|
  {
    if entries != [] {
      var entry := entries[0];
      if entry.name in modules {
        var loadedOrError := engine.loadModule(fce, entry.name, modules[entry.name], entry.config);
        var rest := modules - {entry.name};
        if loadedOrError.Ok? {
          LoadSucceedsOnlyIfAvailable(engine, loadedOrError.value, rest, entries[1..]);
          if LoadModules(engine, fce, modules, entries).result.Ok? {
            assert Available(entries[1..], rest);
            forall i, j | 0 <= i < j < |entries|
              ensures entries[i].name != entries[j].name
            {
              assert entries[j] == entries[1..][j - 1];
              if i > 0 {
                assert entries[i] == entries[1..][i - 1];
              }
            }
            forall i | 0 <= i < |entries|
              ensures entries[i].name in modules
            {
              if i > 0 {
                assert entries[i] == entries[1..][i - 1];
              }
            }
          }
          if AcceptsAll(engine) && Available(entries, modules) {
            forall i | 0 <= i < |entries[1..]|
              ensures entries[1..][i].name in rest
            {
              assert entries[1..][i] == entries[i + 1];
            }
            forall i, j | 0 <= i < j < |entries[1..]|
              ensures entries[1..][i].name != entries[1..][j].name
            {
              assert entries[1..][i] == entries[i + 1] && entries[1..][j] == entries[j + 1];
            }
          }
        }
      }
    }
  }

  /**
   * A successful load hands every configured module to the engine under its
   * own name, with the bytes given for that name, in config order.
   */
  lemma {:induction false} LoadsEveryEntryInOrder(
    engine: Engine, fce: Fce, modules: map<string, seq<bv8>>, entries: seq<ModuleEntry>)
    requires LoadModules(engine, fce, modules, entries).result.Ok?
    ensures var loads := LoadModules(engine, fce, modules, entries).loads;
      && |loads| == |entries|
      && forall i :: 0 <= i < |entries| ==>
           entries[i].name in modules && loads[i] == ModuleLoad(entries[i].name, modules[entries[i].name], entries[i].config)
    decreases |entries|
  {
    LoadSucceedsOnlyIfAvailable(engine, fce, modules, entries);
    if entries != [] {
      var entry := entries[0];
      var loaded := engine.loadModule(fce, entry.name, modules[entry.name], entry.config).value;
      var rest := modules - {entry.name};
      LoadsEveryEntryInOrder(engine, loaded, rest, entries[1..]);
      var loads := LoadModules(engine, fce, modules, entries).loads;
      var restLoads := LoadModules(engine, loaded, rest, entries[1..]).loads;
      assert loads == [ModuleLoad(entry.name, modules[entry.name], entry.config)] + restLoads;
      forall i | 0 < i < |entries|
        ensures loads[i] == ModuleLoad(entries[i].name, modules[entries[i].name], entries[i].config)
      {
        assert entries[i] == entries[1..][i - 1];
        assert entries[i].name != entry.name;
        assert loads[i] == restLoads[i - 1];
      }
    }
  }

  /**
   * An `InstantiationError` names a configured module that was not among
   * `modules`, or that an earlier entry had already taken out.
   */
  lemma {:induction false} InstantiationErrorNamesMissingModule(
    engine: Engine, fce: Fce, modules: map<string, seq<bv8>>, entries: seq<ModuleEntry>, name: string)
    requires LoadModules(engine, fce, modules, entries).result == Err(InstantiationError(name))
    ensures exists i :: 0 <= i < |entries| && entries[i].name == name
                        && (name !in modules || exists j :: 0 <= j < i && entries[j].name == name)
    decreases |entries|
  {
    var entry := entries[0];
    if entry.name in modules {
      var loaded := engine.loadModule(fce, entry.name, modules[entry.name], entry.config).value;
      var rest := modules - {entry.name};
      InstantiationErrorNamesMissingModule(engine, loaded, rest, entries[1..], name);
      var i :| 0 <= i < |entries[1..]| && entries[1..][i].name == name
        && (name !in rest || exists j :: 0 <= j < i && entries[1..][j].name == name);
      assert entries[i + 1] == entries[1..][i];
      if name !in rest && name in modules {
        assert name == entry.name;
        assert entries[0].name == name;
      } else if name in rest {
        var j :| 0 <= j < i && entries[1..][j].name == name;
        assert entries[j + 1] == entries[1..][j];
      }
    }
  }

  /**
   * The first error ends the loop: the entries before it were each loaded
   * once, with their own bytes, and no entry after it is. An
   * `InstantiationError` is raised at the entry right after the last load,
   * whose module was never given or already taken out; an `EngineError` is
   * the engine's refusal of the last load, made on the engine the earlier
   * entries left behind.
   */
  lemma {:induction false} LoadStopsAtFirstError(
    engine: Engine, fce: Fce, modules: map<string, seq<bv8>>, entries: seq<ModuleEntry>)
    requires LoadModules(engine, fce, modules, entries).result.Err?
    ensures var run := LoadModules(engine, fce, modules, entries);
      var n := |run.loads|;
      && n <= |entries|
      && (forall k :: 0 <= k < n ==>
            entries[k].name in modules
            && run.loads[k] == ModuleLoad(entries[k].name, modules[entries[k].name], entries[k].config))
      && (run.result.error.InstantiationError? || run.result.error.EngineError?)
      && (run.result.error.InstantiationError? ==>
            && n < |entries|
            && entries[n].name == run.result.error.moduleName
            && (entries[n].name !in modules || exists j :: 0 <= j < n && entries[j].name == entries[n].name))
      && (run.result.error.EngineError? ==>
            && 0 < n
            && var before := LoadModules(engine, fce, modules, entries[..n - 1]);
               var last := entries[n - 1];
               && before.result.Ok?
               && engine.loadModule(before.result.value, last.name, modules[last.name], last.config)
                  == Err(run.result.error.message))
    decreases |entries|
  {
    var run := LoadModules(engine, fce, modules, entries);
    var entry := entries[0];
    if entry.name in modules {
      var loadedOrError := engine.loadModule(fce, entry.name, modules[entry.name], entry.config);
      if loadedOrError.Err? {
        assert entries[..0] == [];
      } else {
        var loaded := loadedOrError.value;
        var rest := modules - {entry.name};
        var tail := entries[1..];
        var restRun := LoadModules(engine, loaded, rest, tail);
        LoadStopsAtFirstError(engine, loaded, rest, tail);
        var m := |restRun.loads|;
        assert run.loads == [ModuleLoad(entry.name, modules[entry.name], entry.config)] + restRun.loads;
        forall k | 0 < k <= m
          ensures entries[k].name in modules
          ensures run.loads[k] == ModuleLoad(entries[k].name, modules[entries[k].name], entries[k].config)
        {
          assert entries[k] == tail[k - 1];
          assert run.loads[k] == restRun.loads[k - 1];
        }
        if run.result.error.InstantiationError? {
          var name := entries[m + 1].name;
          assert tail[m] == entries[m + 1];
          if name in rest {
            var j :| 0 <= j < m && tail[j].name == name;
            assert entries[j + 1] == tail[j];
          } else if name in modules {
            assert entries[0].name == name;
          }
        }
        if run.result.error.EngineError? {
          assert entries[..m][0] == entry;
          assert entries[..m][1..] == tail[..m - 1];
          assert entries[m] == tail[m - 1];
        }
      }
    }
  }

  // ---------------------------------------------------------------------------
  // The interface cache

  /**
   * The signature map built from a module's list: `collect` into a hash map
   * keeps, for a name listed twice, the later signature.
   */
  function SignatureMap(signatures: seq<FceFunctionSignature>): map<string, FunctionTypes>
    decreases |signatures|
  {
    if signatures == [] then map[]
    else
      var last := signatures[|signatures| - 1];
      SignatureMap(signatures[..|signatures| - 1])[last.name := FunctionTypes(last.arguments, last.outputs)]
  }

  /** A name is in the map exactly when some signature has it, and maps to the last such signature's types. */
  lemma {:induction false} SignatureMapLastWins(signatures: seq<FceFunctionSignature>, name: string)
    ensures name in SignatureMap(signatures) <==> exists i :: 0 <= i < |signatures| && signatures[i].name == name
    ensures name in SignatureMap(signatures) ==>
      exists i :: 0 <= i < |signatures| && signatures[i].name == name
        && SignatureMap(signatures)[name] == FunctionTypes(signatures[i].arguments, signatures[i].outputs)
        && forall j :: i < j < |signatures| ==> signatures[j].name != name
    decreases |signatures|
  {
    if signatures != [] {
      var n := |signatures| - 1;
      var front := signatures[..n];
      SignatureMapLastWins(front, name);
      if signatures[n].name != name {
        if exists i :: 0 <= i < |signatures| && signatures[i].name == name {
          var i :| 0 <= i < |signatures| && signatures[i].name == name;
          assert front[i] == signatures[i];
        }
        if name in SignatureMap(signatures) {
          var i :| 0 <= i < |front| && front[i].name == name
            && SignatureMap(front)[name] == FunctionTypes(front[i].arguments, front[i].outputs)
            && forall j :: i < j < |front| ==> front[j].name != name;
          assert signatures[i] == front[i];
          forall j | i < j < |signatures|
            ensures signatures[j].name != name
          {
            if j < n {
              assert signatures[j] == front[j];
            }
          }
        }
      }
    }
  }

  /** The cache entry for a module the engine reports. */
  function InterfaceOf(m: FceModuleInterface): ModuleInterface {
    ModuleInterface(SignatureMap(m.functionSignatures), m.recordTypes)
  }

  /** What a lookup should answer, asking the engine directly. */
  function Reference(fce: Fce, moduleName: string, funcName: string): Result<FunctionInterface, FaaSError> {
    if moduleName !in fce.modules then Err(NoSuchModule(moduleName))
    else
      var found := InterfaceOf(fce.modules[moduleName]);
      if funcName !in found.functionSignatures then Err(MissingFunctionError(funcName))
      else
        var types := found.functionSignatures[funcName];
        Ok(FunctionInterface(types.arguments, types.outputs, found.recordTypes))
  }

  /** Every cache entry is a loaded module's interface, filed under that module's name. */
  predicate CacheCoherent(fce: Fce, cache: map<string, ModuleInterface>) {
    forall k :: k in cache ==> k in fce.modules && cache[k] == InterfaceOf(fce.modules[k])
  }

  datatype LookupOutcome = LookupOutcome(result: Result<FunctionInterface, FaaSError>, cache: map<string, ModuleInterface>)

  /**
   * `lookup_module_interface`, with the key the new cache entry is filed
   * under as a parameter: a module in the cache answers from the cache
   * (`MissingFunctionError` if the function is not there); otherwise the
   * engine is asked and, on success only, one entry is added.
   */
  function Lookup(fce: Fce, cache: map<string, ModuleInterface>, moduleName: string, funcName: string, insertKey: string): LookupOutcome {
    if moduleName in cache then
      var cached := cache[moduleName];
      if funcName in cached.functionSignatures then
        var types := cached.functionSignatures[funcName];
        LookupOutcome(Ok(FunctionInterface(types.arguments, types.outputs, cached.recordTypes)), cache)
      else LookupOutcome(Err(MissingFunctionError(funcName)), cache)
    else if moduleName !in fce.modules then LookupOutcome(Err(NoSuchModule(moduleName)), cache)
    else
      var found := InterfaceOf(fce.modules[moduleName]);
      if funcName !in found.functionSignatures then LookupOutcome(Err(MissingFunctionError(funcName)), cache)
      else
        var types := found.functionSignatures[funcName];
        LookupOutcome(Ok(FunctionInterface(types.arguments, types.outputs, found.recordTypes)),
                      cache[insertKey := found])
  }

  /** The source files the new entry under the function's name. */
  function LookupAsWritten(fce: Fce, cache: map<string, ModuleInterface>, moduleName: string, funcName: string): (o: LookupOutcome)
    ensures o.cache.Keys <= cache.Keys + {funcName}
    ensures o.result.Ok? && moduleName !in cache ==> funcName in o.cache
  {
    Lookup(fce, cache, moduleName, funcName, funcName)
  }

  /** The new entry filed under the module's name, as the cache is read. */
  function LookupCorrected(fce: Fce, cache: map<string, ModuleInterface>, moduleName: string, funcName: string): LookupOutcome {
    Lookup(fce, cache, moduleName, funcName, moduleName)
  }

  /**
   * What a lookup answers and does to the cache, whatever key it files
   * under: a hit answers the cached entry's types, and a cached module
   * without the function answers `MissingFunctionError` even though the
   * engine is not asked; a miss answers what the engine says, so a module
   * the engine does not know is `NoSuchModule`. A hit or any error leaves
   * the cache as it was; a successful miss adds exactly the module's
   * interface under `insertKey`, and the answer is that entry's.
   */
  lemma LookupCacheEffect(fce: Fce, cache: map<string, ModuleInterface>, moduleName: string, funcName: string, insertKey: string)
    ensures var o := Lookup(fce, cache, moduleName, funcName, insertKey);
      && (moduleName in cache && funcName in cache[moduleName].functionSignatures ==>
            var types := cache[moduleName].functionSignatures[funcName];
            o.result == Ok(FunctionInterface(types.arguments, types.outputs, cache[moduleName].recordTypes)))
      && (moduleName in cache && funcName !in cache[moduleName].functionSignatures ==>
            o.result == Err(MissingFunctionError(funcName)))
      && (moduleName !in cache ==> o.result == Reference(fce, moduleName, funcName))
      && (moduleName !in cache && moduleName !in fce.modules ==> o.result == Err(NoSuchModule(moduleName)))
      && (moduleName in cache || o.result.Err? ==> o.cache == cache)
      && (moduleName !in cache && o.result.Ok? ==>
            && moduleName in fce.modules
            && o.cache == cache[insertKey := InterfaceOf(fce.modules[moduleName])]
            && funcName in o.cache[insertKey].functionSignatures
            && var types := o.cache[insertKey].functionSignatures[funcName];
               o.result == Ok(FunctionInterface(types.arguments, types.outputs, o.cache[insertKey].recordTypes)))
  {
  }

  /**
   * With the entry filed under the module's name, a lookup answers what the
   * engine would, and the cache stays coherent.
   */
  lemma CorrectedLookupMatchesReference(fce: Fce, cache: map<string, ModuleInterface>, moduleName: string, funcName: string)
    requires CacheCoherent(fce, cache)
    ensures var o := LookupCorrected(fce, cache, moduleName, funcName);
      o.result == Reference(fce, moduleName, funcName) && CacheCoherent(fce, o.cache)
  {
  }

  /**
   * As written, a lookup of function "f" of module "m" files m's interface
   * under "f"; a later lookup of function "g" of a module named "f", which
   * is not loaded, then answers with m's "g" instead of `NoSuchModule`.
   */
  lemma AsWrittenAnswersForUnloadedModule()
    ensures var fce := Fce(map["m" := FceModuleInterface(
                          [FceFunctionSignature("f", [], []), FceFunctionSignature("g", [], [I32])], map[])]);
      var first := LookupAsWritten(fce, map[], "m", "f");
      var second := LookupAsWritten(fce, first.cache, "f", "g");
      && first.result.Ok?
      && !CacheCoherent(fce, first.cache)
      && second.result == Ok(FunctionInterface([], [I32], map[]))
      && Reference(fce, "f", "g") == Err(NoSuchModule("f"))
  {
    var signatures := [FceFunctionSignature("f", [], []), FceFunctionSignature("g", [], [I32])];
    assert signatures[..1][..0] == [];
    assert SignatureMap(signatures[..1]) == map["f" := FunctionTypes([], [])];
    assert SignatureMap(signatures) == map["f" := FunctionTypes([], []), "g" := FunctionTypes([], [I32])];
    var fce := Fce(map["m" := FceModuleInterface(signatures, map[])]);
    var first := LookupAsWritten(fce, map[], "m", "f");
    assert first.cache == map["f" := InterfaceOf(fce.modules["m"])];
    assert "f" in first.cache && "f" !in fce.modules;
    var second := LookupAsWritten(fce, first.cache, "f", "g");
    assert second.result == Ok(FunctionInterface([], [I32], map[]));
  }

  // ---------------------------------------------------------------------------
  // The facade

  class FluenceFaaS {
    /** The engine with the loaded modules. */
    var fce: Fce

    /** The parameters of the current call, shared with the modules. */
    var callParameters: CallParameters

    /** Interfaces of the modules looked up so far, by module name. */
    var moduleInterfacesCache: map<string, ModuleInterface>

    /** Every cached interface is that of a loaded module, under its name. */
    predicate Valid()
      reads this
    {
      CacheCoherent(fce, moduleInterfacesCache)
    }

    constructor (fce: Fce, callParameters: CallParameters)
      ensures Valid()
      ensures this.fce == fce && this.callParameters == callParameters && moduleInterfacesCache == map[]
    {
      this.fce := fce;
      this.callParameters := callParameters;
      moduleInterfacesCache := map[];
    }

    /**
     * `with_modules`: a new engine with every configured module loaded, as
     * `LoadModules` from an empty engine says, default call parameters and
     * an empty interface cache.
     */
    static method WithModules(engine: Engine, modules: map<string, seq<bv8>>, config: FaaSConfig)
      returns (r: Result<FluenceFaaS, FaaSError>, ghost loads: seq<ModuleLoad>)
      ensures var run := LoadModules(engine, Fce(map[]), modules, config.modulesConfig);
        && loads == run.loads
        && (r.Ok? <==> run.result.Ok?)
        && (r.Err? ==> r.error == run.result.error)
        && (r.Ok? ==>
              && fresh(r.value) && r.value.Valid() && r.value.fce == run.result.value
              && r.value.callParameters == DEFAULT_CALL_PARAMETERS && r.value.moduleInterfacesCache == map[])
    {
      var fce := Fce(map[]);
      var remaining := modules;
      var entries := config.modulesConfig;
      ghost var whole := LoadModules(engine, fce, modules, entries);
      loads := [];
      var i := 0;
      while i < |entries|
        invariant 0 <= i <= |entries|
        invariant var rest := LoadModules(engine, fce, remaining, entries[i..]);
          whole == LoadRun(rest.result, loads + rest.loads)
      {
        var entry := entries[i];
        assert entries[i..][0] == entry && entries[i..][1..] == entries[i + 1..];
        if entry.name !in remaining {
          return Err(InstantiationError(entry.name)), loads;
        }
        var moduleBytes := remaining[entry.name];
        remaining := remaining - {entry.name};
        var loaded := engine.loadModule(fce, entry.name, moduleBytes, entry.config);
        loads := loads + [ModuleLoad(entry.name, moduleBytes, entry.config)];
        if loaded.Err? {
          return Err(EngineError(loaded.error)), loads;
        }
        fce := loaded.value;
        i := i + 1;
      }
      var faas := new FluenceFaaS(fce, DEFAULT_CALL_PARAMETERS);
      return Ok(faas), loads;
    }

    /**
     * `call_with_ivalues`: replaces the call parameters, then calls the
     * function through the engine, which sees the new parameters. The
     * loaded modules and the interface cache are left as they were, so a
     * coherent cache stays coherent.
     */
    method CallWithIValues(
      moduleName: string, funcName: string, args: seq<IValue>, callParameters: CallParameters, call: FceCall)
      returns (r: Result<seq<IValue>, FaaSError>)
      modifies this`callParameters
      ensures this.callParameters == callParameters
      ensures fce == old(fce) && moduleInterfacesCache == old(moduleInterfacesCache)
      ensures old(Valid()) ==> Valid()
      ensures var c := call(fce, callParameters, moduleName, funcName, args);
        r == (if c.Ok? then Ok(c.value) else Err(EngineError(c.error)))
    {
      this.callParameters := callParameters;
      var c := call(fce, this.callParameters, moduleName, funcName, args);
      r := if c.Ok? then Ok(c.value) else Err(EngineError(c.error));
    }

    /**
     * `lookup_module_interface`, filing a new entry under the module's
     * name; it answers as `Reference` does and keeps the cache coherent.
     */
    method LookupModuleInterface(moduleName: string, funcName: string) returns (r: Result<FunctionInterface, FaaSError>)
      modifies this`moduleInterfacesCache
      ensures var o := LookupCorrected(fce, old(moduleInterfacesCache), moduleName, funcName);
        r == o.result && moduleInterfacesCache == o.cache
      ensures old(Valid()) ==> Valid() && r == Reference(fce, moduleName, funcName)
    {
      if moduleName in moduleInterfacesCache {
        var moduleInterface := moduleInterfacesCache[moduleName];
        if funcName in moduleInterface.functionSignatures {
          var types := moduleInterface.functionSignatures[funcName];
          return Ok(FunctionInterface(types.arguments, types.outputs, moduleInterface.recordTypes));
        }
        return Err(MissingFunctionError(funcName));
      }
      if moduleName !in fce.modules {
        return Err(NoSuchModule(moduleName));
      }
      var found := fce.modules[moduleName];
      var functionSignatures := SignatureMap(found.functionSignatures);
      if funcName !in functionSignatures {
        return Err(MissingFunctionError(funcName));
      }
      var types := functionSignatures[funcName];
      moduleInterfacesCache := moduleInterfacesCache[moduleName := ModuleInterface(functionSignatures, found.recordTypes)];
      return Ok(FunctionInterface(types.arguments, types.outputs, found.recordTypes));
    }
  }
}
