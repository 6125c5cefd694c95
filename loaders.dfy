/**
 * What the entrypoint and plugin loaders share: the entrypoint classes they
 * discover, the constraint annotations that gate them, the in-order filters
 * that decide which survive, and the lifecycle hooks run over the survivors.
 *
 * Calling a hook runs code outside this model, so a hook dispatch is
 * recorded as the sequence of calls it makes.
 */
module Entrypoints {
  import opened Java
  import opened Strings
  import opened Constraints

  /** What a loader reads off an entrypoint class: its name and its two constraint annotations. */
  datatype EntrypointClass = EntrypointClass(
    name: string,
    constraints: Option<AConstraints>,
    constraint: Option<AConstraint>)

  /** One step of a `ServiceLoader` iteration: an instance, or a `ServiceConfigurationError`. */
  datatype Discovered<T> = Instance(value: T) | ConfigurationError

  /** Every constraint of an `@AConstraints` annotation holds. */
  predicate ConstraintsHold(env: Environment, a: AConstraints)
  {
    forall i :: 0 <= i < |a.value| ==> Holds(env, Translate(a.value[i]))
  }

  /** The gate every loader applies: `@AConstraints` when present, then `@AConstraint` when present. */
  predicate Admitted(env: Environment, c: EntrypointClass)
  {
    (c.constraints.None? || ConstraintsHold(env, c.constraints.value))
    && (c.constraint.None? || Holds(env, Translate(c.constraint.value)))
  }

  /**
   * The gate as the loaders run it: `Constraints.from(constraints).result()`
   * first, and `Constraint.from(constraint).result()` only if that passed.
   */
  method Admits(ev: Evaluator, c: EntrypointClass) returns (ok: bool)
    requires ev.Valid()
    modifies ev`cache
    ensures ev.Valid()
    ensures ok == Admitted(ev.env, c)
  {
    if c.constraints.Some? {
      var s := FromAnnotations(c.constraints.value, ev);
      var all := s.Result();
      if !all {
        assert !ConstraintsHold(ev.env, c.constraints.value) by {
          var k :| 0 <= k < |s.constraints| && !Holds(ev.env, s.constraints[k]);
          assert s.constraints[k] == Translate(c.constraints.value.value[k]);
        }
        return false;
      }
    }
    if c.constraint.Some? {
      var k := From(c.constraint.value);
      var holds := ev.Evaluate(k);
      if !holds {
        return false;
      }
    }
    ok := true;
  }

  // ---------------------------------------------------------------- filters

  /** The discovered instances whose class passes the gate, in discovery order; errors are skipped. */
  function Served<T>(env: Environment, classOf: T -> EntrypointClass, ds: seq<Discovered<T>>): seq<T>
    decreases |ds|
  {
    if |ds| == 0 then []
    else
      var last := ds[|ds| - 1];
      Served(env, classOf, ds[..|ds| - 1])
      + (if last.Instance? && Admitted(env, classOf(last.value)) then [last.value] else [])
  }

  lemma {:induction false} ServedAppend<T>(env: Environment, classOf: T -> EntrypointClass,
                                           a: seq<Discovered<T>>, b: seq<Discovered<T>>)
    ensures Served(env, classOf, a + b) == Served(env, classOf, a) + Served(env, classOf, b)
    decreases |b|
  {
    if |b| == 0 {
      assert a + b == a;
    } else {
      var b' := b[..|b| - 1];
      assert (a + b)[..|a + b| - 1] == a + b';
      ServedAppend(env, classOf, a, b');
    }
  }

  /** An instance survives exactly when it was discovered and its class passes the gate. */
  lemma {:induction false} ServedMembers<T>(env: Environment, classOf: T -> EntrypointClass,
                                            ds: seq<Discovered<T>>, x: T)
    ensures x in Served(env, classOf, ds)
        <==> (exists i :: 0 <= i < |ds| && ds[i] == Instance(x)) && Admitted(env, classOf(x))
    decreases |ds|
  {
    if |ds| > 0 {
      var init := ds[..|ds| - 1];
      ServedMembers(env, classOf, init, x);
      if exists i :: 0 <= i < |ds| && ds[i] == Instance(x) {
        var i :| 0 <= i < |ds| && ds[i] == Instance(x);
        if i < |ds| - 1 {
          assert init[i] == Instance(x);
        }
      }
      if exists i :: 0 <= i < |init| && init[i] == Instance(x) {
        var i :| 0 <= i < |init| && init[i] == Instance(x);
        assert ds[i] == Instance(x);
      }
    }
  }

  /**
   * The provider classes that pass the gate and whose no-argument
   * constructor succeeds, instantiated in order; `instantiate` gives `None`
   * where the reflective construction throws.
   */
  function Kept<T>(env: Environment, instantiate: EntrypointClass -> Option<T>, cs: seq<EntrypointClass>): seq<T>
    decreases |cs|
  {
    if |cs| == 0 then []
    else
      var last := cs[|cs| - 1];
      Kept(env, instantiate, cs[..|cs| - 1])
      + (if Admitted(env, last) && instantiate(last).Some? then [instantiate(last).value] else [])
  }

  lemma {:induction false} KeptAppend<T>(env: Environment, instantiate: EntrypointClass -> Option<T>,
                                         a: seq<EntrypointClass>, b: seq<EntrypointClass>)
    ensures Kept(env, instantiate, a + b) == Kept(env, instantiate, a) + Kept(env, instantiate, b)
    decreases |b|
  {
    if |b| == 0 {
      assert a + b == a;
    } else {
      var b' := b[..|b| - 1];
      assert (a + b)[..|a + b| - 1] == a + b';
      KeptAppend(env, instantiate, a, b');
    }
  }

  /** An entrypoint comes from a provider that passes the gate and constructs, and every such provider gives one. */
  lemma {:induction false} KeptMembers<T>(env: Environment, instantiate: EntrypointClass -> Option<T>,
                                          cs: seq<EntrypointClass>, x: T)
    ensures x in Kept(env, instantiate, cs)
        <==> exists i :: 0 <= i < |cs| && Admitted(env, cs[i]) && instantiate(cs[i]) == Some(x)
    decreases |cs|
  {
    if |cs| > 0 {
      var init := cs[..|cs| - 1];
      KeptMembers(env, instantiate, init, x);
      if exists i :: 0 <= i < |cs| && Admitted(env, cs[i]) && instantiate(cs[i]) == Some(x) {
        var i :| 0 <= i < |cs| && Admitted(env, cs[i]) && instantiate(cs[i]) == Some(x);
        if i < |cs| - 1 {
          assert init[i] == cs[i];
        }
      }
      if exists i :: 0 <= i < |init| && Admitted(env, init[i]) && instantiate(init[i]) == Some(x) {
        var i :| 0 <= i < |init| && Admitted(env, init[i]) && instantiate(init[i]) == Some(x);
        assert cs[i] == init[i];
      }
    }
  }

  // ---------------------------------------------------------------- hooks

  datatype Hook = OnInit | OnEnable | OnDisable

  /** One hook invocation on one entrypoint. */
  datatype Call<T> = Call(hook: Hook, entrypoint: T)

  /** A hook run over the loaded entrypoints: one call each, in stored order. */
  method CallEach<T>(hook: Hook, entrypoints: seq<T>) returns (calls: seq<Call<T>>)
    ensures |calls| == |entrypoints|
    ensures forall i :: 0 <= i < |calls| ==> calls[i] == Call(hook, entrypoints[i])
  {
    calls := [];
    for i := 0 to |entrypoints|
      invariant |calls| == i
      invariant forall j :: 0 <= j < i ==> calls[j] == Call(hook, entrypoints[j])
    {
      calls := calls + [Call(hook, entrypoints[i])];
    }
  }

  // ---------------------------------------------------------------- service files

  /** A service-file line names a class unless, trimmed, it is blank or a `#` comment. */
  predicate NamesClass(line: string)
  {
    var t := Trim(line);
    t != [] && !StartsWith(t, "#")
  }

  /**
   * The classes a service file lists, in file order: each line naming a
   * class is trimmed and resolved; `resolve` gives `None` where
   * `Class.forName(...).asSubclass(Entrypoint.class)` throws.
   */
  function ServiceClasses(resolve: string -> Option<EntrypointClass>, lines: seq<string>): seq<EntrypointClass>
    decreases |lines|
  {
    if |lines| == 0 then []
    else
      var last := lines[|lines| - 1];
      ServiceClasses(resolve, lines[..|lines| - 1])
      + (if NamesClass(last) && resolve(Trim(last)).Some? then [resolve(Trim(last)).value] else [])
  }

  lemma {:induction false} ServiceClassesAppend(resolve: string -> Option<EntrypointClass>,
                                                a: seq<string>, b: seq<string>)
    ensures ServiceClasses(resolve, a + b) == ServiceClasses(resolve, a) + ServiceClasses(resolve, b)
    decreases |b|
  {
    if |b| == 0 {
      assert a + b == a;
    } else {
      var b' := b[..|b| - 1];
      assert (a + b)[..|a + b| - 1] == a + b';
      ServiceClassesAppend(resolve, a, b');
    }
  }

  /**
   * A read that fails part-way returns what the lines read so far gave:
   * a prefix of what the whole file would have given.
   */
  lemma ServiceClassesOfPrefix(resolve: string -> Option<EntrypointClass>, lines: seq<string>, k: nat)
    requires k <= |lines|
    ensures ServiceClasses(resolve, lines[..k]) <= ServiceClasses(resolve, lines)
  {
    assert lines == lines[..k] + lines[k..];
    ServiceClassesAppend(resolve, lines[..k], lines[k..]);
  }

  /** Blank and comment lines, however indented, contribute nothing. */
  lemma SkippedLine(resolve: string -> Option<EntrypointClass>, lines: seq<string>, line: string)
    requires !NamesClass(line)
    ensures ServiceClasses(resolve, lines + [line]) == ServiceClasses(resolve, lines)
  {
    assert (lines + [line])[..|lines|] == lines;
  }

  /** Reading one more line adds its class, if it names one that resolves. */
  lemma ServiceClassesStep(resolve: string -> Option<EntrypointClass>, lines: seq<string>, i: nat)
    requires i < |lines|
    ensures ServiceClasses(resolve, lines[..i + 1]) == ServiceClasses(resolve, lines[..i])
      + (if NamesClass(lines[i]) && resolve(Trim(lines[i])).Some? then [resolve(Trim(lines[i])).value] else [])
  {
    assert lines[..i + 1][..i] == lines[..i];
  }

  /** `readServiceFile`, given the lines read before the end of the file or an I/O failure. */
  method ReadServiceFile(resolve: string -> Option<EntrypointClass>, lines: seq<string>)
    returns (classes: seq<EntrypointClass>)
    ensures classes == ServiceClasses(resolve, lines)
  {
    classes := [];
    for i := 0 to |lines|
      invariant classes == ServiceClasses(resolve, lines[..i])
    {
      ServiceClassesStep(resolve, lines, i);
      var line := Trim(lines[i]);
      if line == [] || StartsWith(line, "#") {
        continue;
      }
      var clazz := resolve(line);
      if clazz.Some? {
        classes := classes + [clazz.value];
      }
    }
    assert lines[..|lines|] == lines;
  }
}

/**
 * The core `loader.EntrypointLoader` and its `Builder`: entrypoints come from
 * explicitly named provider classes, from the `ServiceLoader`, or both.
 */
module EntrypointLoaders {
  import opened Java
  import opened Versions
  import opened Constraints
  import opened Entrypoints
  import Platforms

  /** The environments whose `ServiceLoader` cannot be used: Forge between 1.14.2 and 1.16.2. */
  const SERVICE_LOADER_BROKEN: Constraint :=
    UNCONSTRAINED.(platform := {Platforms.FORGE}, min := V14_2, max := V16_2)

  const SERVICE_LOADER_NOT_INITIALIZED: string := "ServiceLoader is not initialized."

  /** The `serviceLoaderBroken` test of `load`, built with `Constraint.builder()`. */
  method ServiceLoaderBroken(ev: Evaluator) returns (broken: bool)
    requires ev.Valid()
    modifies ev`cache
    ensures ev.Valid()
    ensures broken == Holds(ev.env, SERVICE_LOADER_BROKEN)
  {
    var b := new Constraints.Builder();
    b.AddPlatform([Platforms.FORGE]);
    b.SetMin(V14_2);
    b.SetMax(V16_2);
    var c := b.Build();
    assert c == SERVICE_LOADER_BROKEN by {
      assert Elements([Platforms.FORGE]) == {Platforms.FORGE};
    }
    broken := ev.Evaluate(c);
  }

  class EntrypointLoader<T> {
    /** The `ServiceLoader`'s iteration, or `None` for the `null` loader. */
    const serviceLoader: Option<seq<Discovered<T>>>
    const providers: seq<EntrypointClass>
    const useServiceLoader: bool
    const useOtherProviders: bool
    /** `getConstructor().newInstance()`; `None` where it throws. */
    const instantiate: EntrypointClass -> Option<T>
    /** `getClass()` of an instance. */
    const classOf: T -> EntrypointClass
    var entrypoints: seq<T>

    /** The constructors build a loader exactly when `useServiceLoader` is set. */
    ghost predicate Valid()
    {
      serviceLoader.Some? <==> useServiceLoader
    }

    constructor (discovered: seq<Discovered<T>>, providers: seq<EntrypointClass>,
                 useServiceLoader: bool, useOtherProviders: bool,
                 instantiate: EntrypointClass -> Option<T>, classOf: T -> EntrypointClass)
      ensures Valid() && entrypoints == []
      ensures serviceLoader == (if useServiceLoader then Some(discovered) else None)
      ensures this.providers == providers && this.useServiceLoader == useServiceLoader
      ensures this.useOtherProviders == useOtherProviders
      ensures this.instantiate == instantiate && this.classOf == classOf
    {
      serviceLoader := if useServiceLoader then Some(discovered) else None;
      this.providers := providers;
      this.useServiceLoader := useServiceLoader;
      this.useOtherProviders := useOtherProviders;
      this.instantiate := instantiate;
      this.classOf := classOf;
      entrypoints := [];
    }

    /** `loadServiceLoader`: the admitted instances; a `null` loader is an `IllegalStateException`. */
    method LoadServiceLoader(ev: Evaluator) returns (r: Except<seq<T>>)
      requires ev.Valid()
      modifies ev`cache
      ensures ev.Valid()
      ensures serviceLoader.None? ==> r == Throw(IllegalState(SERVICE_LOADER_NOT_INITIALIZED))
      ensures serviceLoader.Some? ==> r == Ok(Served(ev.env, classOf, serviceLoader.value))
    {
      if serviceLoader.None? {
        return Throw(IllegalState(SERVICE_LOADER_NOT_INITIALIZED));
      }
      var ds := serviceLoader.value;
      var loaded: seq<T> := [];
      for i := 0 to |ds|
        invariant ev.Valid()
        invariant loaded == Served(ev.env, classOf, ds[..i])
      {
        assert ds[..i + 1][..i] == ds[..i];
        match ds[i]
        case ConfigurationError =>
        case Instance(entrypoint) =>
          var ok := Admits(ev, classOf(entrypoint));
          if ok {
            loaded := loaded + [entrypoint];
          }
      }
      assert ds[..|ds|] == ds;
      r := Ok(loaded);
    }

    /** `loadProviderClasses`: the admitted providers that construct, in order. */
    method LoadProviderClasses(ev: Evaluator) returns (loaded: seq<T>)
      requires ev.Valid()
      modifies ev`cache
      ensures ev.Valid()
      ensures loaded == Kept(ev.env, instantiate, providers)
    {
      loaded := [];
      for i := 0 to |providers|
        invariant ev.Valid()
        invariant loaded == Kept(ev.env, instantiate, providers[..i])
      {
        assert providers[..i + 1][..i] == providers[..i];
        var ok := Admits(ev, providers[i]);
        if !ok {
          continue;
        }
        var instance := instantiate(providers[i]);
        if instance.Some? {
          loaded := loaded + [instance.value];
        }
      }
      assert providers[..|providers|] == providers;
    }

    /**
     * What one `load` adds: the providers when the `ServiceLoader` is broken
     * or other providers are wanted, then the `ServiceLoader`'s entrypoints
     * when it works and is wanted.
     */
    function Loaded(env: Environment): seq<T>
      requires Valid()
    {
      var broken := Holds(env, SERVICE_LOADER_BROKEN);
      (if broken || useOtherProviders then Kept(env, instantiate, providers) else [])
      + (if !broken && useServiceLoader then Served(env, classOf, serviceLoader.value) else [])
    }

    method Load(ev: Evaluator)
      requires Valid() && ev.Valid()
      modifies this, ev`cache
      ensures ev.Valid()
      ensures entrypoints == old(entrypoints) + Loaded(ev.env)
    {
      var broken := ServiceLoaderBroken(ev);
      if broken || useOtherProviders {
        var fromProviders := LoadProviderClasses(ev);
        entrypoints := entrypoints + fromProviders;
      }
      if !broken && useServiceLoader {
        var fromServices := LoadServiceLoader(ev);
        entrypoints := entrypoints + fromServices.value;
      }
    }

    /** `onInit`, `onEnable` and `onDisable`: the hook on every loaded entrypoint, in order. */
    method CallHook(hook: Hook) returns (calls: seq<Call<T>>)
      ensures |calls| == |entrypoints|
      ensures forall i :: 0 <= i < |calls| ==> calls[i] == Call(hook, entrypoints[i])
    {
      calls := CallEach(hook, entrypoints);
    }
  }

  /** On Forge between 1.14.2 and 1.16.2 only the provider classes are used, whatever the flags say. */
  lemma BrokenServiceLoaderUsesProviders<T>(l: EntrypointLoader<T>, env: Environment)
    requires l.Valid() && Holds(env, SERVICE_LOADER_BROKEN)
    ensures l.Loaded(env) == Kept(env, l.instantiate, l.providers)
  {
  }

  /** Elsewhere, providers are used only on request and always come before the service entrypoints. */
  lemma WorkingServiceLoader<T>(l: EntrypointLoader<T>, env: Environment)
    requires l.Valid() && !Holds(env, SERVICE_LOADER_BROKEN)
    ensures !l.useOtherProviders && !l.useServiceLoader ==> l.Loaded(env) == []
    ensures l.useOtherProviders && l.useServiceLoader ==>
      l.Loaded(env) == Kept(env, l.instantiate, l.providers) + Served(env, l.classOf, l.serviceLoader.value)
    ensures !l.useOtherProviders && l.useServiceLoader ==>
      l.Loaded(env) == Served(env, l.classOf, l.serviceLoader.value)
  {
  }

  /** `EntrypointLoader.Builder`. */
  class Builder {
    var entrypointClass: Option<string>
    var classLoader: Option<string>
    var providers: seq<EntrypointClass>
    var useServiceLoader: bool
    var useOtherProviders: bool

    /** No entry point class or class loader, no providers, the `ServiceLoader` on and other providers off. */
    constructor ()
      ensures entrypointClass.None? && classLoader.None? && providers == []
      ensures useServiceLoader && !useOtherProviders
    {
      entrypointClass := None;
      classLoader := None;
      providers := [];
      useServiceLoader := true;
      useOtherProviders := false;
    }

    method EntrypointClassIs(name: string)
      modifies this`entrypointClass
      ensures entrypointClass == Some(name)
    {
      entrypointClass := Some(name);
    }

    method ClassLoaderIs(loader: string)
      modifies this`classLoader
      ensures classLoader == Some(loader)
    {
      classLoader := Some(loader);
    }

    /** `servicePaths`: the classes of each service file, file after file; `files` gives each file's lines. */
    method ServicePaths(paths: seq<string>, files: string -> seq<string>, resolve: string -> Option<EntrypointClass>)
      modifies this`providers
      ensures providers == old(providers) + PathClasses(paths, files, resolve)
    {
      for i := 0 to |paths|
        invariant providers == old(providers) + PathClasses(paths[..i], files, resolve)
      {
        PathClassesStep(paths, files, resolve, i);
        var classes := ReadServiceFile(resolve, files(paths[i]));
        AppendAssoc(old(providers), PathClasses(paths[..i], files, resolve), classes);
        providers := providers + classes;
      }
      assert paths[..|paths|] == paths;
    }

    /** `serviceNames`: each name that resolves, untrimmed, in order. */
    method ServiceNames(names: seq<string>, resolve: string -> Option<EntrypointClass>)
      modifies this`providers
      ensures providers == old(providers) + Resolved(names, resolve)
    {
      for i := 0 to |names|
        invariant providers == old(providers) + Resolved(names[..i], resolve)
      {
        assert names[..i + 1][..i] == names[..i];
        var clazz := resolve(names[i]);
        if clazz.Some? {
          providers := providers + [clazz.value];
        }
      }
      assert names[..|names|] == names;
    }

    method ServiceClasses(classes: seq<EntrypointClass>)
      modifies this`providers
      ensures providers == old(providers) + classes
    {
      providers := providers + classes;
    }

    method UseServiceLoader(use: bool)
      modifies this`useServiceLoader
      ensures useServiceLoader == use
    {
      useServiceLoader := use;
    }

    method UseOtherProviders(use: bool)
      modifies this`useOtherProviders
      ensures useOtherProviders == use
    {
      useOtherProviders := use;
    }

    /**
     * `build`: `discover(entrypointClass, classLoader)` is what the
     * `ServiceLoader` for that class and class loader iterates. Without an
     * entry point class, `ServiceLoader.load` throws a `NullPointerException`.
     */
    method Build<T>(discover: (string, Option<string>) -> seq<Discovered<T>>,
                    instantiate: EntrypointClass -> Option<T>, classOf: T -> EntrypointClass)
      returns (r: Except<EntrypointLoader<T>>)
      ensures useServiceLoader && entrypointClass.None? ==> r == Throw(NullPointer(NO_MESSAGE))
      ensures r.Ok? ==> fresh(r.value) && r.value.Valid() && r.value.entrypoints == []
      ensures r.Ok? ==>
        && r.value.providers == providers
        && r.value.useServiceLoader == useServiceLoader && r.value.useOtherProviders == useOtherProviders
        && r.value.instantiate == instantiate && r.value.classOf == classOf
      ensures r.Ok? && useServiceLoader ==>
        r.value.serviceLoader == Some(discover(entrypointClass.value, classLoader))
      ensures !(useServiceLoader && entrypointClass.None?) ==> r.Ok?
    {
      if useServiceLoader && entrypointClass.None? {
        return Throw(NullPointer(NO_MESSAGE));
      }
      var discovered := if useServiceLoader then discover(entrypointClass.value, classLoader) else [];
      var loader := new EntrypointLoader(discovered, providers, useServiceLoader, useOtherProviders,
                                         instantiate, classOf);
      r := Ok(loader);
    }
  }

  /** `Objects.requireNonNull`, which `ServiceLoader.load` calls, throws without a message. */
  const NO_MESSAGE: string := ""

  /** The classes of several service files, file after file. */
  function PathClasses(paths: seq<string>, files: string -> seq<string>,
                       resolve: string -> Option<EntrypointClass>): seq<EntrypointClass>
    decreases |paths|
  {
    if |paths| == 0 then []
    else PathClasses(paths[..|paths| - 1], files, resolve) + ServiceClasses(resolve, files(paths[|paths| - 1]))
  }

  lemma AppendAssoc<X>(a: seq<X>, b: seq<X>, c: seq<X>)
    ensures (a + b) + c == a + (b + c)
  {
  }

  /** One more service file appends its classes. */
  lemma PathClassesStep(paths: seq<string>, files: string -> seq<string>,
                        resolve: string -> Option<EntrypointClass>, i: nat)
    requires i < |paths|
    ensures PathClasses(paths[..i + 1], files, resolve)
            == PathClasses(paths[..i], files, resolve) + ServiceClasses(resolve, files(paths[i]))
  {
    assert paths[..i + 1][..i] == paths[..i];
  }

  /** The classes the names resolve to, in order; names that do not resolve are skipped. */
  function Resolved(names: seq<string>, resolve: string -> Option<EntrypointClass>): seq<EntrypointClass>
    decreases |names|
  {
    if |names| == 0 then []
    else
      var last := resolve(names[|names| - 1]);
      Resolved(names[..|names| - 1], resolve) + (if last.Some? then [last.value] else [])
  }

  /** A name resolves into the providers exactly when it resolves at all. */
  lemma {:induction false} ResolvedMembers(names: seq<string>, resolve: string -> Option<EntrypointClass>,
                                           c: EntrypointClass)
    ensures c in Resolved(names, resolve) <==> exists i :: 0 <= i < |names| && resolve(names[i]) == Some(c)
    decreases |names|
  {
    if |names| > 0 {
      var init := names[..|names| - 1];
      ResolvedMembers(init, resolve, c);
      if exists i :: 0 <= i < |names| && resolve(names[i]) == Some(c) {
        var i :| 0 <= i < |names| && resolve(names[i]) == Some(c);
        if i < |names| - 1 {
          assert init[i] == names[i];
        }
      }
      if exists i :: 0 <= i < |init| && resolve(init[i]) == Some(c) {
        var i :| 0 <= i < |init| && resolve(init[i]) == Some(c);
        assert names[i] == init[i];
      }
    }
  }
}

/**
 * The `plugin` package's `EntrypointLoader` and `PluginLoader`: both walk the
 * `ServiceLoader` with a plain for-each, so a `ServiceConfigurationError`
 * ends the walk and propagates.
 */
module PluginLoaders {
  import opened Java
  import opened Constraints
  import opened Entrypoints

  /** The position of the first `ServiceConfigurationError`, or the length when there is none. */
  function FirstError<T>(ds: seq<Discovered<T>>): (k: nat)
    ensures k <= |ds|
    ensures forall i :: 0 <= i < k ==> ds[i].Instance?
    ensures k < |ds| ==> ds[k].ConfigurationError?
    decreases |ds|
  {
    if |ds| == 0 || ds[0].ConfigurationError? then 0 else 1 + FirstError(ds[1..])
  }

  /** The shared for-each loop: the admitted instances up to the first error, and how the walk ended. */
  method LoadAdmitted<T>(ev: Evaluator, classOf: T -> EntrypointClass, ds: seq<Discovered<T>>)
    returns (kept: seq<T>, r: Except<()>)
    requires ev.Valid()
    modifies ev`cache
    ensures ev.Valid()
    ensures kept == Served(ev.env, classOf, ds[..FirstError(ds)])
    ensures r.Throw? <==> FirstError(ds) < |ds|
    ensures r.Throw? ==> r.error == ServiceConfigurationError
  {
    kept := [];
    var i := 0;
    while i < |ds|
      invariant 0 <= i <= FirstError(ds)
      invariant ev.Valid()
      invariant kept == Served(ev.env, classOf, ds[..i])
    {
      assert ds[..i + 1][..i] == ds[..i];
      match ds[i]
      case ConfigurationError =>
        return kept, Throw(ServiceConfigurationError);
      case Instance(entrypoint) =>
        var ok := Admits(ev, classOf(entrypoint));
        if ok {
          kept := kept + [entrypoint];
        }
      i := i + 1;
    }
    r := Ok(());
  }

  /** `plugin.EntrypointLoader`. */
  class EntrypointLoader<T> {
    const discovered: seq<Discovered<T>>
    const classOf: T -> EntrypointClass
    var entrypoints: seq<T>

    constructor (discovered: seq<Discovered<T>>, classOf: T -> EntrypointClass)
      ensures this.discovered == discovered && this.classOf == classOf && entrypoints == []
    {
      this.discovered := discovered;
      this.classOf := classOf;
      entrypoints := [];
    }

    /** `load`: appends the admitted entrypoints, so a second call appends them again. */
    method Load(ev: Evaluator) returns (r: Except<()>)
      requires ev.Valid()
      modifies this, ev`cache
      ensures ev.Valid()
      ensures entrypoints == old(entrypoints) + Served(ev.env, classOf, discovered[..FirstError(discovered)])
      ensures r.Throw? <==> FirstError(discovered) < |discovered|
    {
      var kept;
      kept, r := LoadAdmitted(ev, classOf, discovered);
      entrypoints := entrypoints + kept;
    }

    /** `onInit`, `onEnable` and `onDisable`. */
    method CallHook(hook: Hook) returns (calls: seq<Call<T>>)
      ensures |calls| == |entrypoints|
      ensures forall i :: 0 <= i < |calls| ==> calls[i] == Call(hook, entrypoints[i])
    {
      calls := CallEach(hook, entrypoints);
    }
  }

  /** `PluginLoader`: the same loading, with only the `init` hook. */
  class PluginLoader<T> {
    const discovered: seq<Discovered<T>>
    const classOf: T -> EntrypointClass
    var plugins: seq<T>

    constructor (discovered: seq<Discovered<T>>, classOf: T -> EntrypointClass)
      ensures this.discovered == discovered && this.classOf == classOf && plugins == []
    {
      this.discovered := discovered;
      this.classOf := classOf;
      plugins := [];
    }

    method Load(ev: Evaluator) returns (r: Except<()>)
      requires ev.Valid()
      modifies this, ev`cache
      ensures ev.Valid()
      ensures plugins == old(plugins) + Served(ev.env, classOf, discovered[..FirstError(discovered)])
      ensures r.Throw? <==> FirstError(discovered) < |discovered|
    {
      var kept;
      kept, r := LoadAdmitted(ev, classOf, discovered);
      plugins := plugins + kept;
    }

    /** `init`: `onInit` on every plugin, in order. */
    method Init() returns (calls: seq<Call<T>>)
      ensures |calls| == |plugins|
      ensures forall i :: 0 <= i < |calls| ==> calls[i] == Call(OnInit, plugins[i])
    {
      calls := CallEach(OnInit, plugins);
    }
  }

  /** Without configuration errors, a load keeps exactly the discovered plugins that pass the gate. */
  lemma CleanDiscoveryKeepsAdmitted<T>(env: Environment, classOf: T -> EntrypointClass,
                                       ds: seq<Discovered<T>>, x: T)
    requires forall i :: 0 <= i < |ds| ==> ds[i].Instance?
    ensures ds[..FirstError(ds)] == ds
    ensures x in Served(env, classOf, ds)
        <==> (exists i :: 0 <= i < |ds| && ds[i] == Instance(x)) && Admitted(env, classOf(x))
  {
    ServedMembers(env, classOf, ds, x);
  }
}
