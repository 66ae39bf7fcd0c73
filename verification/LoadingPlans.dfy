/**
 Configuration in two phases: first reading, which only follows names through the registry, then
 building, which only asks the configurers of components. Loading does both at once; it comes to
 the same, and the first error in the order of reading wins.
 */
module LoadingPlans {
  import opened Values
  import opened Components
  import opened Config
  import opened Loading
  import opened LoadingProps
  import opened TwoPass
  import opened PipelineMw

  // ---- components -----------------------------------------------------------------------

  /** What configuring a component from a value asks of it: nothing, or one of its configurers. */
  function Component<T>(
    name: string, t: Configurers, cfg: Value, unconfigured: T, configured: Call -> Result<T>): Result<T>
  {
    if !Takes(t, KindOf(cfg)) then Fail(Misconfigured(name, KindOf(cfg)))
    else if cfg.Nil? && !t.empty then Ok(unconfigured)
    else configured(CallWith(cfg))
  }

  /** The configurer for a value, called with that value. */
  function CallWith(cfg: Value): Call {
    match cfg
    case Nil => CallEmpty
    case Str(s) => CallString(s)
    case Int(n) => CallInteger(n)
    case Float(r) => CallFloat(r)
    case Bool(b) => CallBool(b)
    case Map(m) => CallMap(m)
    case Arr(a) => CallArray(a)
    case Other(_) => CallGeneric(cfg)
  }

  // ---- fns ------------------------------------------------------------------------------

  datatype FnPlan =
    | BasePlan(name: string, configurers: Configurers, fn: nat, cfg: Value)
    | IdentityPlan(cfg: Value)
    | LoaderPlan(inner: FnPlan)
    | PoolPlanned(pool: nat, concurrency: nat, inner: FnPlan)
    | BrokenPlan(err: Err)

  function ReadFn(reg: Registry, lib: Library, factory: FnFactory, cfg: Value): FnPlan
    decreases Rank(cfg), cfg, 1
  {
    match factory
    case BaseFactory(name, configurers, fn) => BasePlan(name, configurers, fn, cfg)
    case IdentityFactory => IdentityPlan(cfg)
    case LoaderFactory =>
      if cfg.Str? || cfg.Map? then LoaderPlan(ReadNamed(reg, lib, cfg))
      else BrokenPlan(Misconfigured("loader", KindOf(cfg)))
    case PoolFactory(pool) =>
      if !cfg.Map? then BrokenPlan(Misconfigured("pool", KindOf(cfg))) else
      (match DecodePool(lib, cfg.m)
       case Fail(err) => BrokenPlan(err)
       case Ok(plan) =>
         PoolPlanned(pool, plan.concurrency,
                     if At(cfg.m, "template").Str? || At(cfg.m, "template").Map?
                     then ReadNamed(reg, lib, At(cfg.m, "template")) else BrokenPlan(UnsupportedTemplate)))
  }

  /** A key, or a map with one entry: the named fn with that configuration. */
  function ReadNamed(reg: Registry, lib: Library, named: Value): FnPlan
    requires named.Str? || named.Map?
    decreases Rank(named), named, 0
  {
    match named
    case Str(key) =>
      if key in reg.fns then ReadFn(reg, lib, reg.fns[key], Nil) else BrokenPlan(NotRegistered(key))
    case Map(m) =>
      if |m| != 1 then BrokenPlan(NotSinglePair) else
      var key := SingleKey(m);
      if key in reg.fns then ReadFn(reg, lib, reg.fns[key], m[key]) else BrokenPlan(NotRegistered(key))
  }

  function BuildFn(lib: Library, plan: FnPlan): Result<Fn> {
    match plan
    case BasePlan(name, configurers, fn, cfg) =>
      var id :- Component(name, configurers, cfg, fn, call => lib.configureBase(fn, call));
      Ok(Base(id))
    case IdentityPlan(cfg) => if cfg.Nil? then Ok(Identity) else Fail(Misconfigured("identity", KindOf(cfg)))
    case LoaderPlan(inner) =>
      var f :- BuildFn(lib, inner);
      Ok(Loader(Some(f)))
    case PoolPlanned(pool, concurrency, inner) =>
      var f :- BuildFn(lib, inner);
      Ok(Pool(pool, seq(concurrency, _ => f)))
    case BrokenPlan(err) => Fail(err)
  }

  /** Main result for fns: loading is building what was read. */
  lemma {:induction false} FnIsBuiltAsRead(reg: Registry, lib: Library, factory: FnFactory, cfg: Value)
    ensures ConfigureFn(reg, lib, factory, cfg) == BuildFn(lib, ReadFn(reg, lib, factory, cfg))
    decreases Rank(cfg), cfg, 1
  {
    match factory
    case BaseFactory(_, configurers, _) => DispatchSound(configurers, cfg);
    case IdentityFactory =>
    case LoaderFactory =>
      if cfg.Str? || cfg.Map? {
        NamedIsBuiltAsRead(reg, lib, cfg);
      }
    case PoolFactory(_) =>
      if cfg.Map? && DecodePool(lib, cfg.m).Ok? {
        var template := At(cfg.m, "template");
        if template.Str? || template.Map? {
          NamedIsBuiltAsRead(reg, lib, template);
        }
      }
  }

  lemma {:induction false} NamedIsBuiltAsRead(reg: Registry, lib: Library, named: Value)
    requires named.Str? || named.Map?
    ensures CreateFromTemplate(reg, lib, named) == BuildFn(lib, ReadNamed(reg, lib, named))
    ensures named.Str? && named.s in reg.fns ==>
              ConfigureFn(reg, lib, reg.fns[named.s], Nil) == BuildFn(lib, ReadNamed(reg, lib, named))
    decreases Rank(named), named, 0
  {
    match named
    case Str(key) =>
      if key in reg.fns { FnIsBuiltAsRead(reg, lib, reg.fns[key], Nil); }
    case Map(m) =>
      if |m| == 1 {
        var key := SingleKey(m);
        if key in reg.fns { FnIsBuiltAsRead(reg, lib, reg.fns[key], m[key]); }
      }
  }

  /** Decoding a pool fails exactly for these configurations, and otherwise takes the concurrency as it is. */
  lemma DecodeFailsIff(lib: Library, m: map<string, Value>)
    ensures var wait, n := At(m, "maxWaitDuration"), At(m, "concurrency");
            && (DecodePool(lib, m).Fail? <==>
                  || !(wait.Nil? || wait.Str?) || !(n.Nil? || n.Int?)
                  || (wait.Str? && wait.s != "" && lib.parseDuration(wait.s).Some?)
                  || (n.Int? && n.n < 0))
            && (DecodePool(lib, m).Ok? && n.Int? && n.n > 0 ==> DecodePool(lib, m).value.concurrency == n.n)
            && (DecodePool(lib, m).Ok? && (n.Nil? || n == Int(0)) ==> DecodePool(lib, m).value.concurrency == 8)
  {
  }

  // ---- middleware -----------------------------------------------------------------------

  /** One leaf to configure, or one error met on the way. */
  datatype Task = LeafTask(name: string, configurers: Configurers, leaf: nat, cfg: Value) | ErrorTask(err: Err)

  /** The leaves of a middleware configuration in the order in which they appear, at any depth. */
  function ReadMw(reg: Registry, factory: MwFactory, cfg: Value): seq<Task>
    decreases Rank(cfg), cfg, 1
  {
    match factory
    case LeafFactory(name, configurers, leaf) => [LeafTask(name, configurers, leaf, cfg)]
    case PipelineFactory =>
      if cfg.Nil? then []
      else if cfg.Arr? then ReadEntries(reg, cfg.a)
      else [ErrorTask(Misconfigured("pipeline", KindOf(cfg)))]
  }

  function ReadEntries(reg: Registry, entries: seq<Value>): seq<Task>
    decreases 1, entries, 0
  {
    if entries == [] then [] else ReadEntry(reg, entries[0]) + ReadEntries(reg, entries[1..])
  }

  function ReadEntry(reg: Registry, entry: Value): seq<Task>
    decreases Rank(entry), entry, 0
  {
    match entry
    case Str(key) => if key in reg.mws then ReadMw(reg, reg.mws[key], Nil) else [ErrorTask(NotRegistered(key))]
    case Map(m) =>
      if |m| != 1 then [ErrorTask(NotSingleKey)] else
      var key := SingleKey(m);
      if key in reg.mws then ReadMw(reg, reg.mws[key], m[key]) else [ErrorTask(NotRegistered(key))]
    case _ => [ErrorTask(WrongEntryType(KindOf(entry)))]
  }

  function BuildLeaf(lib: Library, task: Task): Result<Leaf> {
    match task
    case LeafTask(name, configurers, leaf, cfg) =>
      Component(name, configurers, cfg, lib.newLeaf(leaf), call => lib.configureLeaf(leaf, call))
    case ErrorTask(err) => Fail(err)
  }

  /** All leaves, or the first error. */
  function BuildLeaves(lib: Library, tasks: seq<Task>): Result<seq<Leaf>> {
    if tasks == [] then Ok([]) else
    var leaf :- BuildLeaf(lib, tasks[0]);
    var leaves :- BuildLeaves(lib, tasks[1..]);
    Ok([leaf] + leaves)
  }

  lemma {:induction false} BuildLeavesAppend(lib: Library, xs: seq<Task>, ys: seq<Task>)
    ensures BuildLeaves(lib, xs + ys) ==
            var r := BuildLeaves(lib, xs);
            if r.Fail? then r else
            var s := BuildLeaves(lib, ys);
            if s.Fail? then s else Ok(r.value + s.value)
  {
    if xs == [] {
      assert xs + ys == ys;
      var s := BuildLeaves(lib, ys);
      assert s.Ok? ==> [] + s.value == s.value;
    } else {
      assert (xs + ys)[0] == xs[0] && (xs + ys)[1..] == xs[1..] + ys;
      BuildLeavesAppend(lib, xs[1..], ys);
      var leaf, r, s := BuildLeaf(lib, xs[0]), BuildLeaves(lib, xs[1..]), BuildLeaves(lib, ys);
      if leaf.Ok? && r.Ok? && s.Ok? {
        assert [leaf.value] + (r.value + s.value) == ([leaf.value] + r.value) + s.value;
      }
    }
  }

  /** A middleware with these leaves, or this error. */
  predicate Amounts(r: Result<Middleware>, leaves: Result<seq<Leaf>>) {
    match r
    case Fail(err) => leaves == Fail(err)
    case Ok(m) => leaves == Ok(Flatten(m))
  }

  /** Main result for middleware: loading gives the leaves in the order of reading, or the first error. */
  lemma {:induction false} MwIsBuiltAsRead(reg: Registry, lib: Library, factory: MwFactory, cfg: Value)
    ensures Amounts(ConfigureMw(reg, lib, factory, cfg), BuildLeaves(lib, ReadMw(reg, factory, cfg)))
    decreases Rank(cfg), cfg, 1
  {
    match factory
    case LeafFactory(name, configurers, leaf) =>
      DispatchSound(configurers, cfg);
      OneLeaf(lib, LeafTask(name, configurers, leaf, cfg));
    case PipelineFactory =>
      if cfg.Arr? {
        EntriesAreBuiltAsRead(reg, lib, cfg.a);
        var ms := ConfigureEntries(reg, lib, cfg.a);
        if ms.Ok? { NestFlattens(ms.value); }
      } else if !cfg.Nil? {
        OneLeaf(lib, ErrorTask(Misconfigured("pipeline", KindOf(cfg))));
      }
  }

  lemma OneLeaf(lib: Library, task: Task)
    ensures BuildLeaves(lib, [task]) ==
            if BuildLeaf(lib, task).Fail? then Fail(BuildLeaf(lib, task).err) else Ok([BuildLeaf(lib, task).value])
  {
    assert BuildLeaves(lib, [task][1..]) == Ok([]);
    assert BuildLeaf(lib, task).Ok? ==> [BuildLeaf(lib, task).value] + [] == [BuildLeaf(lib, task).value];
  }

  lemma {:induction false} EntriesAreBuiltAsRead(reg: Registry, lib: Library, entries: seq<Value>)
    ensures var r, leaves := ConfigureEntries(reg, lib, entries), BuildLeaves(lib, ReadEntries(reg, entries));
            match r
            case Fail(err) => leaves == Fail(err)
            case Ok(ms) => leaves == Ok(FlattenAll(ms))
    decreases 1, entries, 0
  {
    if entries != [] {
      EntryIsBuiltAsRead(reg, lib, entries[0]);
      EntriesAreBuiltAsRead(reg, lib, entries[1..]);
      hide BuildLeaves;
      BuildLeavesAppend(lib, ReadEntry(reg, entries[0]), ReadEntries(reg, entries[1..]));
    }
  }

  lemma {:induction false} EntryIsBuiltAsRead(reg: Registry, lib: Library, entry: Value)
    ensures Amounts(ConfigureEntry(reg, lib, entry), BuildLeaves(lib, ReadEntry(reg, entry)))
    decreases Rank(entry), entry, 0
  {
    match entry
    case Str(key) =>
      OneLeaf(lib, ErrorTask(NotRegistered(key)));
      if key in reg.mws { MwIsBuiltAsRead(reg, lib, reg.mws[key], Nil); }
    case Map(m) =>
      if |m| != 1 {
        OneLeaf(lib, ErrorTask(NotSingleKey));
      } else {
        var key := SingleKey(m);
        OneLeaf(lib, ErrorTask(NotRegistered(key)));
        if key in reg.mws { MwIsBuiltAsRead(reg, lib, reg.mws[key], m[key]); }
      }
    case _ => OneLeaf(lib, ErrorTask(WrongEntryType(KindOf(entry))));
  }

  // ---- sources --------------------------------------------------------------------------

  datatype SourcePlan =
    | PlainPlan(name: string, configurers: Configurers, source: nat, cfg: Value)
    | WrappedPlan(inner: SourcePlan)
    | BrokenSource(err: Err)

  function ReadSource(reg: Registry, factory: SourceFactory, cfg: Value): SourcePlan
    decreases Rank(cfg), cfg
  {
    match factory
    case PlainSourceFactory(name, configurers, source) => PlainPlan(name, configurers, source, cfg)
    case SourceLoaderFactory =>
      (match cfg
       case Str(key) =>
         if key in reg.sources then WrappedPlan(ReadSource(reg, reg.sources[key], Nil))
         else BrokenSource(NotRegistered(key))
       case Map(m) =>
         if |m| != 1 then BrokenSource(NotSinglePair) else
         var key := SingleKey(m);
         if key in reg.sources then WrappedPlan(ReadSource(reg, reg.sources[key], m[key]))
         else BrokenSource(NotRegistered(key))
       case _ => BrokenSource(Misconfigured("source loader", KindOf(cfg))))
  }

  function BuildSource(lib: Library, plan: SourcePlan): Result<Source> {
    match plan
    case PlainPlan(name, configurers, source, cfg) =>
      var id :- Component(name, configurers, cfg, source, call => lib.configureSource(source, call));
      Ok(PlainSource(id))
    case WrappedPlan(inner) =>
      var s :- BuildSource(lib, inner);
      Ok(LoadedSource(Some(s)))
    case BrokenSource(err) => Fail(err)
  }

  lemma {:induction false} SourceIsBuiltAsRead(reg: Registry, lib: Library, factory: SourceFactory, cfg: Value)
    ensures ConfigureSource(reg, lib, factory, cfg) == BuildSource(lib, ReadSource(reg, factory, cfg))
    decreases Rank(cfg), cfg
  {
    match factory
    case PlainSourceFactory(_, configurers, _) => DispatchSound(configurers, cfg);
    case SourceLoaderFactory =>
      match cfg
      case Str(key) =>
        if key in reg.sources { SourceIsBuiltAsRead(reg, lib, reg.sources[key], Nil); }
      case Map(m) =>
        if |m| == 1 {
          var key := SingleKey(m);
          if key in reg.sources { SourceIsBuiltAsRead(reg, lib, reg.sources[key], m[key]); }
        }
      case _ =>
  }

  // ---- the runner -----------------------------------------------------------------------

  function FnOf(reg: Registry, lib: Library, m: map<string, Value>): Result<Fn> {
    if "fn" in reg.fns then BuildFn(lib, ReadFn(reg, lib, reg.fns["fn"], At(m, "fn"))) else Fail(NotRegistered("fn"))
  }

  function LeavesOf(reg: Registry, lib: Library, m: map<string, Value>): Result<seq<Leaf>> {
    if At(m, "middleware").Nil? then Ok([])
    else if "middleware" in reg.mws then BuildLeaves(lib, ReadMw(reg, reg.mws["middleware"], At(m, "middleware")))
    else Fail(NotRegistered("middleware"))
  }

  function SourceOf(reg: Registry, lib: Library, m: map<string, Value>): Result<Source> {
    if "source" in reg.sources then BuildSource(lib, ReadSource(reg, reg.sources["source"], At(m, "source")))
    else Fail(NotRegistered("source"))
  }

  /** The fn a runner was configured with, without the middleware around it. */
  function BusinessFn(f: Fn): Fn {
    if f.Wrap? then f.fn else f
  }

  /** The leaves of that middleware. */
  function LayersOf(f: Fn): seq<Leaf> {
    if f.Wrap? then Flatten(f.mw) else []
  }

  /**
   Main result for the runner: it holds the fn its configuration names, inside the middleware it
   names, in order, and the source it names; or it fails with the first of the errors for a missing
   source, a missing fn, the fn, the middleware and the source.
   */
  lemma RunnerHoldsConfigured(reg: Registry, lib: Library, m: map<string, Value>)
    ensures var r := ConfigureRunner(reg, lib, m);
            var f, leaves, s := FnOf(reg, lib, m), LeavesOf(reg, lib, m), SourceOf(reg, lib, m);
            if At(m, "source").Nil? then r == Fail(SourceRequired)
            else if At(m, "fn").Nil? then r == Fail(FnRequired)
            else if f.Fail? then r == Fail(f.err)
            else if leaves.Fail? then r == Fail(leaves.err)
            else if s.Fail? then r == Fail(s.err)
            else
              && r.Ok? && BusinessFn(r.value.fn) == f.value && LayersOf(r.value.fn) == leaves.value
              && (r.value.fn.Wrap? <==> !At(m, "middleware").Nil?) && r.value.source == s.value
  {
    hide ConfigureFn, ConfigureMw, ConfigureSource, BuildFn, BuildLeaves, BuildSource;
    hide ReadFn, ReadMw, ReadSource, Flatten;
    if "fn" in reg.fns {
      FnIsBuiltAsRead(reg, lib, reg.fns["fn"], At(m, "fn"));
      NeverWrapped(lib, ReadFn(reg, lib, reg.fns["fn"], At(m, "fn")));
    }
    if "middleware" in reg.mws {
      MwIsBuiltAsRead(reg, lib, reg.mws["middleware"], At(m, "middleware"));
    }
    if "source" in reg.sources {
      SourceIsBuiltAsRead(reg, lib, reg.sources["source"], At(m, "source"));
    }
  }

  /** Configuration builds no middleware around a fn but the runner's own. */
  lemma NeverWrapped(lib: Library, plan: FnPlan)
    ensures BuildFn(lib, plan).Ok? ==> !BuildFn(lib, plan).value.Wrap?
  {
  }
}
