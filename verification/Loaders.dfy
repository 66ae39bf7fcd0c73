/**
 The objects that configuration updates in place: the fn and source loaders, the pipeline
 middleware and the runner. Each method is tied to the functions of Loading, and leaves the
 object as it was when it returns an error.
 */
module Loaders {
  import opened Values
  import opened World
  import opened Components
  import opened Config
  import opened Loading
  import opened LoadingProps
  import opened LoadingPlans
  import opened PipelineMw

  /** run/fn/loader. */
  class WrappedFn {
    const registry: Registry
    const lib: Library
    var fn: Option<Fn>

    constructor (registry: Registry, lib: Library)
      ensures this.registry == registry && this.lib == lib && fn == None
    {
      this.registry, this.lib := registry, lib;
      fn := None;
    }

    method ConfigureString(fnKey: string) returns (err: Option<Err>)
      modifies this
      ensures Configured(Str(fnKey), old(fn), err)
    {
      var found := Find(registry.fns, fnKey);
      if found.Fail? {
        return Some(found.err);
      }
      var f := ConfigureFn(registry, lib, found.value, Nil);
      if f.Fail? {
        return Some(f.err);
      }
      fn := Some(f.value);
      return None;
    }

    method ConfigureMap(configMap: map<string, Value>) returns (err: Option<Err>)
      modifies this
      ensures Configured(Map(configMap), old(fn), err)
    {
      var pair := GetSinglePair(configMap);
      if pair.Fail? {
        return Some(pair.err);
      }
      var found := Find(registry.fns, pair.value.0);
      if found.Fail? {
        return Some(found.err);
      }
      var f := ConfigureFn(registry, lib, found.value, pair.value.1);
      if f.Fail? {
        return Some(f.err);
      }
      fn := Some(f.value);
      return None;
    }

    /** The loader now is what loading `cfg` yields, or still holds `was` and has reported the error. */
    ghost predicate Configured(cfg: Value, was: Option<Fn>, err: Option<Err>)
      reads this
    {
      match ConfigureFn(registry, lib, LoaderFactory, cfg)
      case Ok(f) => err == None && f == Loader(fn) && fn.Some?
      case Fail(e) => err == Some(e) && fn == was
    }

    method Invoke(o: Oracle, w: Trace, ctx: Ctx, input: Value) returns (r: Reply)
      requires fn.Some?
      ensures r == InvokeFn(o, w, ctx, Loader(fn), input)
    {
      r := InvokeFn(o, w, ctx, fn.value, input);
    }
  }

  /** run/source/loader. */
  class WrappedSource {
    const registry: Registry
    const lib: Library
    var source: Option<Source>

    constructor (registry: Registry, lib: Library)
      ensures this.registry == registry && this.lib == lib && source == None
    {
      this.registry, this.lib := registry, lib;
      source := None;
    }

    method Configure(sourceKey: string, sourceConfig: Value) returns (err: Option<Err>)
      modifies this
      ensures sourceKey !in registry.sources ==> err == Some(NotRegistered(sourceKey)) && source == old(source)
      ensures sourceKey in registry.sources ==>
                match ConfigureSource(registry, lib, registry.sources[sourceKey], sourceConfig)
                case Ok(s) => err == None && source == Some(s)
                case Fail(e) => err == Some(e) && source == old(source)
    {
      var found := Find(registry.sources, sourceKey);
      if found.Fail? {
        return Some(found.err);
      }
      var s := ConfigureSource(registry, lib, found.value, sourceConfig);
      if s.Fail? {
        return Some(s.err);
      }
      source := Some(s.value);
      return None;
    }

    method ConfigureString(sourceKey: string) returns (err: Option<Err>)
      modifies this
      ensures Configured(Str(sourceKey), old(source), err)
    {
      err := Configure(sourceKey, Nil);
    }

    method ConfigureMap(configMap: map<string, Value>) returns (err: Option<Err>)
      modifies this
      ensures Configured(Map(configMap), old(source), err)
    {
      var pair := GetSinglePair(configMap);
      if pair.Fail? {
        return Some(pair.err);
      }
      err := Configure(pair.value.0, pair.value.1);
    }

    ghost predicate Configured(cfg: Value, was: Option<Source>, err: Option<Err>)
      reads this
    {
      match ConfigureSource(registry, lib, SourceLoaderFactory, cfg)
      case Ok(s) => err == None && s == LoadedSource(source) && source.Some?
      case Fail(e) => err == Some(e) && source == was
    }
  }

  /** run/middleware/pipeline. */
  class PipelineMiddleware {
    const registry: Registry
    const lib: Library
    var middleware: Middleware

    constructor (registry: Registry, lib: Library)
      ensures this.registry == registry && this.lib == lib && middleware == IdentityMw
    {
      this.registry, this.lib := registry, lib;
      middleware := IdentityMw;
    }

    method ConfigureArray(cfg: seq<Value>) returns (err: Option<Err>)
      modifies this
      ensures match ConfigureMw(registry, lib, PipelineFactory, Arr(cfg))
              case Ok(m) => err == None && m == Pipeline(middleware)
              case Fail(e) => err == Some(e) && middleware == old(middleware)
    {
      var middlewares := [];
      var i := 0;
      while i < |cfg|
        invariant 0 <= i <= |cfg|
        invariant ConfigureEntries(registry, lib, cfg[..i]) == Ok(middlewares)
        invariant middleware == old(middleware)
      {
        var m: Result<Middleware>;
        match cfg[i] {
          case Str(key) =>
            var factory := Find(registry.mws, key);
            m := if factory.Fail? then Fail(factory.err) else ConfigureMw(registry, lib, factory.value, Nil);
          case Map(entry) =>
            if |entry| != 1 {
              m := Fail(NotSingleKey);
            } else {
              var key := SingleKey(entry);
              var factory := Find(registry.mws, key);
              m := if factory.Fail? then Fail(factory.err) else ConfigureMw(registry, lib, factory.value, entry[key]);
            }
          case other =>
            m := Fail(WrongEntryType(KindOf(other)));
        }
        assert m == ConfigureEntry(registry, lib, cfg[i]);
        assert cfg == cfg[..i] + [cfg[i]] + cfg[i + 1..] && cfg[..i + 1] == cfg[..i] + [cfg[i]];
        OneEntryConfigured(registry, lib, cfg[i]);
        EntriesAppend(registry, lib, cfg[..i], [cfg[i]]);
        if m.Fail? {
          EntriesAppend(registry, lib, cfg[..i + 1], cfg[i + 1..]);
          return Some(m.err);
        }
        middlewares := middlewares + [m.value];
        i := i + 1;
      }
      assert cfg[..i] == cfg;
      middleware := Compose(middlewares);
      return None;
    }
  }

  /** run/runner. */
  class Runner {
    const registry: Registry
    const lib: Library
    var source: Option<Source>
    var fn: Option<Fn>

    constructor (registry: Registry, lib: Library)
      ensures this.registry == registry && this.lib == lib && source == None && fn == None
    {
      this.registry, this.lib := registry, lib;
      source, fn := None, None;
    }

    method ConfigureMap(configMap: map<string, Value>) returns (err: Option<Err>)
      modifies this
      ensures match ConfigureRunner(registry, lib, configMap)
              case Ok(wiring) => err == None && fn == Some(wiring.fn) && source == Some(wiring.source)
              case Fail(e) => err == Some(e) && fn == old(fn) && source == old(source)
    {
      var cfgSource, cfgMiddleware, cfgFn := At(configMap, "source"), At(configMap, "middleware"), At(configMap, "fn");
      if cfgSource.Nil? {
        return Some(SourceRequired);
      }
      if cfgFn.Nil? {
        return Some(FnRequired);
      }

      var fnFactory := Find(registry.fns, "fn");
      if fnFactory.Fail? {
        return Some(fnFactory.err);
      }
      var configured := ConfigureFn(registry, lib, fnFactory.value, cfgFn);
      if configured.Fail? {
        return Some(configured.err);
      }
      var f := configured.value;

      if !cfgMiddleware.Nil? {
        var middlewareFactory := Find(registry.mws, "middleware");
        if middlewareFactory.Fail? {
          return Some(middlewareFactory.err);
        }
        var m := ConfigureMw(registry, lib, middlewareFactory.value, cfgMiddleware);
        if m.Fail? {
          return Some(m.err);
        }
        f := Wrap(m.value, f);
      }

      var sourceFactory := Find(registry.sources, "source");
      if sourceFactory.Fail? {
        return Some(sourceFactory.err);
      }
      var s := ConfigureSource(registry, lib, sourceFactory.value, cfgSource);
      if s.Fail? {
        return Some(s.err);
      }

      fn := Some(f);
      source := Some(s.value);
      return None;
    }
  }

  /** A runner that configured itself has its loaders filled and its pools full. */
  lemma RunnerIsReady(reg: Registry, lib: Library, m: map<string, Value>)
    requires ConfigureRunner(reg, lib, m).Ok?
    ensures var wiring, sizes := ConfigureRunner(reg, lib, m).value, Concurrencies(reg, reg.fns["fn"], At(m, "fn"));
            && (wiring.fn.Wrap? <==> !At(m, "middleware").Nil?)
            && BuiltFor(BusinessFn(wiring.fn), sizes)
            && LeafFns(wiring.fn) == Product(sizes)
            && SourceFilled(wiring.source)
  {
    var factory, cfg := reg.fns["fn"], At(m, "fn");
    LoadedIsBuilt(reg, lib, factory, cfg);
    PoolsBuildTheProduct(reg, lib, factory, cfg);
    LoadedSourceIsFilled(reg, lib, reg.sources["source"], At(m, "source"));
  }
}
