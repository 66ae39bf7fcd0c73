/**
 What configuring a component from a value yields (run/fn/loader, run/fn/pool,
 run/middleware/pipeline, run/source/loader). Loaders, pools and pipelines may name each
 other and themselves; every nested step takes a smaller configuration value.
 */
module Loading {
  import opened Values
  import opened Components
  import opened Config
  import opened PipelineMw

  datatype FnFactory =
    | BaseFactory(name: string, configurers: Configurers, fn: nat)
    | IdentityFactory
    | LoaderFactory
    | PoolFactory(pool: nat)

  datatype MwFactory =
    | LeafFactory(name: string, configurers: Configurers, leaf: nat)
    | PipelineFactory

  datatype SourceFactory =
    | PlainSourceFactory(name: string, configurers: Configurers, source: nat)
    | SourceLoaderFactory

  datatype Registry = Registry(
    fns: map<string, FnFactory>, mws: map<string, MwFactory>, sources: map<string, SourceFactory>)

  /** A source, or a loader around one. */
  datatype Source = PlainSource(source: nat) | LoadedSource(inner: Option<Source>)

  /** The configurers of components outside the model, and library parsers. */
  datatype Library = Library(
    newLeaf: nat -> Leaf,                        // a leaf fresh from its factory
    configureLeaf: (nat, Call) -> Result<Leaf>,
    configureBase: (nat, Call) -> Result<nat>,
    configureSource: (nat, Call) -> Result<nat>,
    parseDuration: string -> Option<Err>)

  const LOADER_CONFIGURERS := NO_CONFIGURERS.(str := true, mapping := true, required := Some(true))
  const POOL_CONFIGURERS := NO_CONFIGURERS.(mapping := true, required := Some(true))
  const PIPELINE_CONFIGURERS := NO_CONFIGURERS.(list := true)

  const DEFAULT_CONCURRENCY := 8

  /** nil is the smallest configuration: loaders pass it on when given just a key. */
  function Rank(v: Value): nat { if v.Nil? then 0 else 1 }

  function Find<T>(m: map<string, T>, key: string): Result<T> {
    if key in m then Ok(m[key]) else Fail(NotRegistered(key))
  }

  // ---- fns --------------------------------------------------------------------

  function ConfigureFn(reg: Registry, lib: Library, factory: FnFactory, cfg: Value): Result<Fn>
    decreases Rank(cfg), cfg, 1
  {
    match factory
    case BaseFactory(name, configurers, fn) =>
      var call := Dispatch(configurers, cfg);
      if call.Reject? then Fail(Misconfigured(name, KindOf(cfg)))
      else if call.Accept? then Ok(Base(fn))
      else var id :- lib.configureBase(fn, call); Ok(Base(id))
    case IdentityFactory =>
      if Dispatch(NO_CONFIGURERS, cfg).Accept? then Ok(Identity) else Fail(Misconfigured("identity", KindOf(cfg)))
    case LoaderFactory =>
      (match Dispatch(LOADER_CONFIGURERS, cfg)
       case CallString(key) =>
         var inner :- Find(reg.fns, key);
         var f :- ConfigureFn(reg, lib, inner, Nil);
         Ok(Loader(Some(f)))
       case CallMap(m) =>
         var pair :- GetSinglePair(m);
         var inner :- Find(reg.fns, pair.0);
         var f :- ConfigureFn(reg, lib, inner, pair.1);
         Ok(Loader(Some(f)))
       case _ => Fail(Misconfigured("loader", KindOf(cfg))))
    case PoolFactory(pool) =>
      (match Dispatch(POOL_CONFIGURERS, cfg)
       case CallMap(m) =>
         var plan :- DecodePool(lib, m);
         var f :- CreateFromTemplate(reg, lib, plan.template);
         Ok(Pool(pool, seq(plan.concurrency, _ => f)))
       case _ => Fail(Misconfigured("pool", KindOf(cfg))))
  }

  /** A pool configuration after decoding, with the default concurrency filled in. */
  datatype PoolPlan = PoolPlan(concurrency: nat, template: Value)

  /** Decoding in the order of `poolFn.ConfigureMap`: structure, duration, then the channel. */
  function DecodePool(lib: Library, m: map<string, Value>): (r: Result<PoolPlan>)
    ensures r.Ok? ==> r.value.concurrency > 0
    ensures r.Ok? ==> r.value.template == At(m, "template")
  {
    var wait, n := At(m, "maxWaitDuration"), At(m, "concurrency");
    if !(wait.Nil? || wait.Str?) || !(n.Nil? || n.Int?) then Fail(Undecodable)
    else if wait.Str? && wait.s != "" && lib.parseDuration(wait.s).Some? then Fail(lib.parseDuration(wait.s).value)
    else if n.Int? && n.n < 0 then Fail(NegativeConcurrency)
    else Ok(PoolPlan(if n.Nil? || n.n == 0 then DEFAULT_CONCURRENCY else n.n, At(m, "template")))
  }

  /** The value under a key, nil if there is none. */
  function At(m: map<string, Value>, key: string): Value {
    if key in m then m[key] else Nil
  }

  function CreateFromTemplate(reg: Registry, lib: Library, template: Value): Result<Fn>
    decreases Rank(template), template, 0
  {
    match template
    case Str(key) =>
      var inner :- Find(reg.fns, key);
      ConfigureFn(reg, lib, inner, Nil)
    case Map(m) =>
      var pair :- GetSinglePair(m);
      var inner :- Find(reg.fns, pair.0);
      ConfigureFn(reg, lib, inner, pair.1)
    case _ => Fail(UnsupportedTemplate)
  }

  // ---- middleware ---------------------------------------------------------------

  function ConfigureMw(reg: Registry, lib: Library, factory: MwFactory, cfg: Value): Result<Middleware>
    decreases Rank(cfg), cfg, 1
  {
    match factory
    case LeafFactory(name, configurers, leaf) =>
      var call := Dispatch(configurers, cfg);
      if call.Reject? then Fail(Misconfigured(name, KindOf(cfg)))
      else if call.Accept? then Ok(Layer(lib.newLeaf(leaf)))
      else var l :- lib.configureLeaf(leaf, call); Ok(Layer(l))
    case PipelineFactory =>
      (match Dispatch(PIPELINE_CONFIGURERS, cfg)
       case Accept => Ok(Pipeline(IdentityMw))
       case CallArray(a) =>
         var ms :- ConfigureEntries(reg, lib, a);
         Ok(Pipeline(Nest(ms)))
       case _ => Fail(Misconfigured("pipeline", KindOf(cfg))))
  }

  /** The entries of a pipeline in order, up to the first error. */
  function ConfigureEntries(reg: Registry, lib: Library, entries: seq<Value>): Result<seq<Middleware>>
    decreases 1, entries, 0
  {
    if entries == [] then Ok([]) else
    var m :- ConfigureEntry(reg, lib, entries[0]);
    var ms :- ConfigureEntries(reg, lib, entries[1..]);
    Ok([m] + ms)
  }

  function ConfigureEntry(reg: Registry, lib: Library, entry: Value): Result<Middleware>
    decreases Rank(entry), entry, 0
  {
    match entry
    case Str(key) =>
      var factory :- Find(reg.mws, key);
      ConfigureMw(reg, lib, factory, Nil)
    case Map(m) =>
      if |m| != 1 then Fail(NotSingleKey) else
      var factory :- Find(reg.mws, SingleKey(m));
      ConfigureMw(reg, lib, factory, m[SingleKey(m)])
    case _ => Fail(WrongEntryType(KindOf(entry)))
  }

  // ---- sources ----------------------------------------------------------------------

  function ConfigureSource(reg: Registry, lib: Library, factory: SourceFactory, cfg: Value): Result<Source>
    decreases Rank(cfg), cfg, 1
  {
    match factory
    case PlainSourceFactory(name, configurers, source) =>
      var call := Dispatch(configurers, cfg);
      if call.Reject? then Fail(Misconfigured(name, KindOf(cfg)))
      else if call.Accept? then Ok(PlainSource(source))
      else var id :- lib.configureSource(source, call); Ok(PlainSource(id))
    case SourceLoaderFactory =>
      (match Dispatch(LOADER_CONFIGURERS, cfg)
       case CallString(key) =>
         var inner :- Find(reg.sources, key);
         var s :- ConfigureSource(reg, lib, inner, Nil);
         Ok(LoadedSource(Some(s)))
       case CallMap(m) =>
         var pair :- GetSinglePair(m);
         var inner :- Find(reg.sources, pair.0);
         var s :- ConfigureSource(reg, lib, inner, pair.1);
         Ok(LoadedSource(Some(s)))
       case _ => Fail(Misconfigured("source loader", KindOf(cfg))))
  }

  // ---- the runner ---------------------------------------------------------------------

  /** The fn and the source a runner ends up with. */
  datatype Wiring = Wiring(fn: Fn, source: Source)

  /** `Runner.ConfigureMap`: fn first, then middleware around it, then the source. */
  function ConfigureRunner(reg: Registry, lib: Library, m: map<string, Value>): Result<Wiring> {
    if At(m, "source").Nil? then Fail(SourceRequired)
    else if At(m, "fn").Nil? then Fail(FnRequired)
    else
      var fnFactory :- Find(reg.fns, "fn");
      var f :- ConfigureFn(reg, lib, fnFactory, At(m, "fn"));
      var g :- (if At(m, "middleware").Nil? then Ok(f) else
        var mwFactory :- Find(reg.mws, "middleware");
        var mw :- ConfigureMw(reg, lib, mwFactory, At(m, "middleware"));
        Ok(Wrap(mw, f)));
      var sourceFactory :- Find(reg.sources, "source");
      var s :- ConfigureSource(reg, lib, sourceFactory, At(m, "source"));
      Ok(Wiring(g, s))
  }
}
