/** What a successful or failed load guarantees. */
module LoadingProps {
  import opened Values
  import opened World
  import opened Components
  import opened Config
  import opened Loading
  import opened TwoPass
  import opened PipelineMw

  // ---- dispatch -------------------------------------------------------------------

  /** The configuration types a target takes. */
  predicate Takes(t: Configurers, k: Kind) {
    match k
    case NilK => t.empty || t.required.None? || !t.required.value
    case StrK => t.str
    case IntK => t.integer
    case FloatK => t.floating
    case BoolK => t.boolean
    case MapK => t.mapping
    case ArrK => t.list
    case OtherK => t.generic
  }

  /** The value a configurer is called with. */
  function Payload(c: Call): Value {
    match c
    case CallString(s) => Str(s)
    case CallInteger(n) => Int(n)
    case CallFloat(r) => Float(r)
    case CallBool(b) => Bool(b)
    case CallMap(m) => Map(m)
    case CallArray(a) => Arr(a)
    case CallGeneric(v) => v
    case _ => Nil
  }

  /** Configure fails by type exactly if the target does not take the type, and passes the value on unchanged. */
  lemma DispatchSound(t: Configurers, v: Value)
    ensures Dispatch(t, v).Reject? <==> !Takes(t, KindOf(v))
    ensures !Dispatch(t, v).Reject? ==> Payload(Dispatch(t, v)) == v
    ensures Dispatch(t, v).Accept? ==> v.Nil? && !t.empty
  {
  }

  // ---- pools and loaders -------------------------------------------------------------

  /** The concurrencies of the pools a fn configuration nests, outermost first; 0 or none means 8. */
  function Concurrencies(reg: Registry, factory: FnFactory, cfg: Value): seq<nat>
    decreases Rank(cfg), cfg, 1
  {
    match factory
    case BaseFactory(_, _, _) => []
    case IdentityFactory => []
    case LoaderFactory => TemplateConcurrencies(reg, cfg)
    case PoolFactory(_) =>
      if !cfg.Map? then [] else
      var n := At(cfg.m, "concurrency");
      [if n.Int? && n.n > 0 then n.n else DEFAULT_CONCURRENCY] + TemplateConcurrencies(reg, At(cfg.m, "template"))
  }

  /** The same for a key or a one-entry map naming a fn. */
  function TemplateConcurrencies(reg: Registry, template: Value): seq<nat>
    decreases Rank(template), template, 0
  {
    match template
    case Str(key) => if key in reg.fns then Concurrencies(reg, reg.fns[key], Nil) else []
    case Map(m) =>
      if |m| != 1 then [] else
      var key := SingleKey(m);
      if key in reg.fns then Concurrencies(reg, reg.fns[key], m[key]) else []
    case _ => []
  }

  function Product(ns: seq<nat>): nat {
    if ns == [] then 1 else ns[0] * Product(ns[1..])
  }

  /**
   A fn as built for the pool sizes `ns`: every loader holds a fn, every pool holds as many
   fns as its channel has room for, and the members of a pool are built alike.
   */
  ghost predicate BuiltFor(f: Fn, ns: seq<nat>)
    decreases f
  {
    match f
    case Base(_) => ns == []
    case Identity => ns == []
    case Wrap(_, _) => false
    case Loader(inner) => inner.Some? && BuiltFor(inner.value, ns)
    case Pool(_, members) =>
      && ns != [] && |members| == ns[0] > 0
      && forall g :: g in members ==> BuiltFor(g, ns[1..])
  }

  /** Loading fills every loader, and every pool to its configured concurrency. */
  lemma {:induction false} LoadedIsBuilt(reg: Registry, lib: Library, factory: FnFactory, cfg: Value)
    requires ConfigureFn(reg, lib, factory, cfg).Ok?
    ensures BuiltFor(ConfigureFn(reg, lib, factory, cfg).value, Concurrencies(reg, factory, cfg))
    decreases Rank(cfg), cfg, 1
  {
    match factory
    case BaseFactory(_, _, _) =>
    case IdentityFactory =>
    case LoaderFactory =>
      if cfg.Str? {
        LoadedIsBuilt(reg, lib, reg.fns[cfg.s], Nil);
      } else {
        var key := SingleKey(cfg.m);
        LoadedIsBuilt(reg, lib, reg.fns[key], cfg.m[key]);
      }
    case PoolFactory(_) =>
      var template := At(cfg.m, "template");
      assert CreateFromTemplate(reg, lib, template).Ok?;
      if template.Str? {
        LoadedIsBuilt(reg, lib, reg.fns[template.s], Nil);
      } else {
        var key := SingleKey(template.m);
        LoadedIsBuilt(reg, lib, reg.fns[key], template.m[key]);
      }
  }

  /** The business fns below a fn. */
  function LeafFns(f: Fn): nat
    decreases f, 1
  {
    match f
    case Base(_) => 1
    case Identity => 1
    case Wrap(_, g) => LeafFns(g)
    case Loader(inner) => if inner.Some? then LeafFns(inner.value) else 0
    case Pool(_, members) => LeafFnsOfAll(members)
  }

  function LeafFnsOfAll(fs: seq<Fn>): nat
    decreases fs, 0
  {
    if fs == [] then 0 else LeafFns(fs[0]) + LeafFnsOfAll(fs[1..])
  }

  lemma {:induction false} LeafFnsMultiply(f: Fn, ns: seq<nat>)
    requires BuiltFor(f, ns)
    ensures LeafFns(f) == Product(ns)
    decreases f, 1
  {
    match f
    case Base(_) =>
    case Identity =>
    case Loader(inner) => LeafFnsMultiply(inner.value, ns);
    case Pool(_, members) => LeafFnsAddUp(members, ns[1..]);
  }

  lemma {:induction false} LeafFnsAddUp(fs: seq<Fn>, ns: seq<nat>)
    requires forall g :: g in fs ==> BuiltFor(g, ns)
    ensures LeafFnsOfAll(fs) == |fs| * Product(ns)
    decreases fs, 0
  {
    if fs != [] {
      LeafFnsMultiply(fs[0], ns);
      LeafFnsAddUp(fs[1..], ns);
    }
  }

  /** Main result for pools: nested pools build exactly the product of their concurrencies. */
  lemma PoolsBuildTheProduct(reg: Registry, lib: Library, factory: FnFactory, cfg: Value)
    requires ConfigureFn(reg, lib, factory, cfg).Ok?
    ensures LeafFns(ConfigureFn(reg, lib, factory, cfg).value) == Product(Concurrencies(reg, factory, cfg))
  {
    LoadedIsBuilt(reg, lib, factory, cfg);
    LeafFnsMultiply(ConfigureFn(reg, lib, factory, cfg).value, Concurrencies(reg, factory, cfg));
  }

  /** A source loader that loaded holds a source, all the way down. */
  predicate SourceFilled(s: Source) {
    s.LoadedSource? ==> s.inner.Some? && SourceFilled(s.inner.value)
  }

  lemma {:induction false} LoadedSourceIsFilled(reg: Registry, lib: Library, factory: SourceFactory, cfg: Value)
    requires ConfigureSource(reg, lib, factory, cfg).Ok?
    ensures SourceFilled(ConfigureSource(reg, lib, factory, cfg).value)
    decreases Rank(cfg), cfg
  {
    if factory.SourceLoaderFactory? {
      if cfg.Str? {
        LoadedSourceIsFilled(reg, lib, reg.sources[cfg.s], Nil);
      } else {
        var key := SingleKey(cfg.m);
        LoadedSourceIsFilled(reg, lib, reg.sources[key], cfg.m[key]);
      }
    }
  }

  // ---- splicing pipelines ------------------------------------------------------------

  /** Entries after entries: the first error wins, otherwise the middleware in order. */
  lemma {:induction false} EntriesAppend(reg: Registry, lib: Library, xs: seq<Value>, ys: seq<Value>)
    ensures ConfigureEntries(reg, lib, xs + ys) ==
            var r := ConfigureEntries(reg, lib, xs);
            if r.Fail? then r else
            var s := ConfigureEntries(reg, lib, ys);
            if s.Fail? then s else Ok(r.value + s.value)
  {
    if xs == [] {
      assert xs + ys == ys;
      var s := ConfigureEntries(reg, lib, ys);
      assert s.Ok? ==> [] + s.value == s.value;
    } else {
      assert (xs + ys)[0] == xs[0] && (xs + ys)[1..] == xs[1..] + ys;
      EntriesAppend(reg, lib, xs[1..], ys);
      var m := ConfigureEntry(reg, lib, xs[0]);
      var r, s := ConfigureEntries(reg, lib, xs[1..]), ConfigureEntries(reg, lib, ys);
      if m.Ok? && r.Ok? && s.Ok? {
        assert [m.value] + (r.value + s.value) == ([m.value] + r.value) + s.value;
      }
    }
  }

  lemma OneEntryConfigured(reg: Registry, lib: Library, entry: Value)
    ensures ConfigureEntries(reg, lib, [entry]) ==
            var m := ConfigureEntry(reg, lib, entry);
            if m.Fail? then Fail(m.err) else Ok([m.value])
  {
    assert ConfigureEntries(reg, lib, [entry][1..]) == Ok([]);
    var m := ConfigureEntry(reg, lib, entry);
    assert m.Ok? ==> [m.value] + [] == [m.value];
  }

  /** Two ways to configure a pipeline that a user cannot tell apart. */
  ghost predicate SamePipeline(r: Result<seq<Middleware>>, s: Result<seq<Middleware>>) {
    if r.Fail? || s.Fail? then r == s else FlattenAll(r.value) == FlattenAll(s.value)
  }

  /** Indistinguishable pipelines answer every Invoke alike. */
  lemma SamePipelineSameInvoke(
    o: Oracle, w: Trace, ctx: Ctx, ms: seq<Middleware>, ns: seq<Middleware>, input: Value, f: Fn)
    requires FlattenAll(ms) == FlattenAll(ns)
    ensures InvokeMw(o, w, ctx, Pipeline(Nest(ms)), input, f) == InvokeMw(o, w, ctx, Pipeline(Nest(ns)), input, f)
  {
    NestFlattens(ms);
    NestFlattens(ns);
    SameLeavesSameMeaning(o, w, ctx, Nest(ms), Nest(ns), input, f);
  }

  /**
   Main result for pipelines: an entry that is itself a pipeline can be replaced by its
   entries. The outcome of the configuration and the meaning of every Invoke stay the same.
   */
  lemma SplicePreserves(reg: Registry, lib: Library, key: string, pre: seq<Value>, inner: seq<Value>, post: seq<Value>)
    requires key in reg.mws && reg.mws[key] == PipelineFactory
    ensures SamePipeline(ConfigureEntries(reg, lib, pre + [Map(map[key := Arr(inner)])] + post),
                         ConfigureEntries(reg, lib, pre + inner + post))
  {
    var entry := Map(map[key := Arr(inner)]);
    var nested := ConfigureEntries(reg, lib, inner);
    assert SingleKey(entry.m) == key;
    assert ConfigureEntry(reg, lib, entry) ==
           if nested.Fail? then Fail(nested.err) else Ok(Pipeline(Nest(nested.value)));
    OneEntryConfigured(reg, lib, entry);
    if nested.Ok? {
      NestFlattens(nested.value);
      assert FlattenAll([Pipeline(Nest(nested.value))]) == FlattenAll(nested.value) by {
        assert FlattenAll([Pipeline(Nest(nested.value))][1..]) == [];
      }
    }
    ReplaceMiddle(reg, lib, pre, [entry], inner, post);
  }

  /** Entries can be replaced by indistinguishable entries anywhere. */
  lemma ReplaceMiddle(
    reg: Registry, lib: Library, pre: seq<Value>, xs: seq<Value>, ys: seq<Value>, post: seq<Value>)
    requires SamePipeline(ConfigureEntries(reg, lib, xs), ConfigureEntries(reg, lib, ys))
    ensures SamePipeline(ConfigureEntries(reg, lib, pre + xs + post), ConfigureEntries(reg, lib, pre + ys + post))
  {
    EntriesAppend(reg, lib, pre, xs);
    EntriesAppend(reg, lib, pre, ys);
    EntriesAppend(reg, lib, pre + xs, post);
    EntriesAppend(reg, lib, pre + ys, post);
    var p, x, y, q := ConfigureEntries(reg, lib, pre), ConfigureEntries(reg, lib, xs),
                      ConfigureEntries(reg, lib, ys), ConfigureEntries(reg, lib, post);
    if p.Ok? && x.Ok? && y.Ok? && q.Ok? {
      FlattenAllAppend(p.value, x.value);
      FlattenAllAppend(p.value, y.value);
      FlattenAllAppend(p.value + x.value, q.value);
      FlattenAllAppend(p.value + y.value, q.value);
    }
  }

  /** An entry that names a pipeline without configuring it behaves as if it were not there. */
  lemma BareEntryIsNothing(reg: Registry, lib: Library, key: string, pre: seq<Value>, post: seq<Value>)
    requires key in reg.mws && reg.mws[key] == PipelineFactory
    ensures SamePipeline(ConfigureEntries(reg, lib, pre + [Str(key)] + post),
                         ConfigureEntries(reg, lib, pre + post))
  {
    OneEntryConfigured(reg, lib, Str(key));
    assert ConfigureEntry(reg, lib, Str(key)) == Ok(Pipeline(IdentityMw));
    assert FlattenAll([Pipeline(IdentityMw)]) == [] by {
      assert FlattenAll([Pipeline(IdentityMw)][1..]) == [];
    }
    ReplaceMiddle(reg, lib, pre, [Str(key)], [], post);
    assert pre + [] + post == pre + post;
  }
}
