/**
 * TemplateManager: the registries of template types and template loaders,
 * and the loading of a template from its definition through the instance
 * cache, type resolution by prefix, and the lock list that catches parent
 * loops.
 */
module TemplateManagers {
  import opened Wrappers

  /** A registered template class, by name. */
  type ClassId = string

  /** An ITemplateDefinition as the manager reads it: its full name and its type. */
  datatype Definition = Definition(fullName: string, templateType: string)

  /** A constructed template: its full name, its class and the parents its constructor loaded. */
  datatype Instance = Instance(fullName: string, cls: ClassId, parents: seq<Instance>)

  /** A template loader, seen through its two operations. */
  datatype Loader = Loader(find: string -> seq<Definition>, load: string -> Option<Instance>)

  /**
   * What the constructor of a template does, as far as the manager can
   * see: it loads each named parent through the manager in order, then
   * either completes or throws `failure`.
   */
  datatype Construction = Construction(templateType: string, parents: seq<string>, failure: Option<Error>)

  /** The templates the constructors can name, by full name. */
  type Catalogue = map<string, Construction>

  /** The distinct elements of a sequence. */
  function Seen<T>(s: seq<T>): set<T> {
    set x | x in s
  }

  /**
   * The class registered under the longest non-empty prefix of t, found by
   * dropping characters from the right; the empty prefix is never looked up.
   */
  function ResolveType(types: map<string, ClassId>, t: string): Option<ClassId>
    decreases |t|
  {
    if |t| == 0 then None
    else if t in types then Some(types[t])
    else ResolveType(types, t[..|t| - 1])
  }

  /**
   * ResolveType answers with the class of a registered non-empty prefix,
   * and no longer prefix is registered; it answers None exactly when no
   * non-empty prefix is registered.
   */
  lemma {:induction false} ResolveTypeLongest(types: map<string, ClassId>, t: string)
    ensures ResolveType(types, t).None? <==> forall n :: 0 < n <= |t| ==> t[..n] !in types
    ensures ResolveType(types, t).Some? ==>
      exists n :: 0 < n <= |t| && t[..n] in types && types[t[..n]] == ResolveType(types, t).value &&
        forall m :: n < m <= |t| ==> t[..m] !in types
    decreases |t|
  {
    if |t| > 0 {
      var u := t[..|t| - 1];
      ResolveTypeLongest(types, u);
      assert forall n :: 0 < n <= |u| ==> u[..n] == t[..n];
      assert t[..|t|] == t;
      if t !in types && ResolveType(types, u).Some? {
        var n :| 0 < n <= |u| && u[..n] in types && types[u[..n]] == ResolveType(types, u).value &&
          forall m :: n < m <= |u| ==> u[..m] !in types;
        assert t[..n] == u[..n];
      }
    }
  }

  /** The registered types and loaders, the instance cache and the lock list. */
  class TemplateManager {
    var types: map<string, ClassId>
    var loaders: map<string, Loader>
    var instances: map<string, Instance>
    var locks: seq<string>
    /** The step at which each instance was cached, and the next step: proof bookkeeping only. */
    ghost var rank: map<string, nat>
    ghost var clock: nat

    /** A new manager: nothing registered, cached or locked. */
    constructor ()
      ensures types == map[] && loaders == map[] && instances == map[] && locks == []
    {
      types := map[];
      loaders := map[];
      instances := map[];
      locks := [];
      rank := map[];
      clock := 0;
    }

    /** registerTemplateType(name, class): replaces any class registered under the name. */
    method RegisterTemplateType(name: string, cls: ClassId)
      modifies this
      ensures types == old(types)[name := cls]
      ensures loaders == old(loaders) && instances == old(instances) && locks == old(locks)
    {
      types := types[name := cls];
    }

    /** registerTemplateLoader(name, loader): replaces any loader registered under the name. */
    method RegisterTemplateLoader(name: string, loader: Loader)
      modifies this
      ensures loaders == old(loaders)[name := loader]
      ensures types == old(types) && instances == old(instances) && locks == old(locks)
    {
      loaders := loaders[name := loader];
    }

    /**
     * findTemplatesByName(name): every loader's findings, concatenated in
     * `order`, the iteration order of the loader map.
     */
    method FindTemplatesByName(order: seq<string>, name: string) returns (result: seq<Definition>)
      requires forall k :: k in order <==> k in loaders
      ensures result == FoundBy(loaders, order, name)
    {
      result := [];
      var i := 0;
      while i < |order|
        invariant i <= |order|
        invariant result == FoundBy(loaders, order[..i], name)
        decreases |order| - i
      {
        assert order[..i + 1][..i] == order[..i];
        result := result + loaders[order[i]].find(name);
        i := i + 1;
      }
      assert order[..i] == order;
    }

    /**
     * loadTemplate(class, name): the first loader in `order` answers alone;
     * with no loader registered the template is invalid.
     */
    method LoadTemplateByName(order: seq<string>, name: string) returns (r: Result<Option<Instance>>)
      requires forall k :: k in order <==> k in loaders
      ensures order == [] <==> r == Err(InvalidTemplate)
      ensures order != [] ==> r == Ok(loaders[order[0]].load(name))
    {
      if |order| > 0 {
        return Ok(loaders[order[0]].load(name));
      }
      return Err(InvalidTemplate);
    }

    /** The type-resolution loop of loadTemplate. */
    method FindTemplateType(templateType: string) returns (cls: Option<ClassId>)
      ensures cls == ResolveType(types, templateType)
    {
      var t := templateType;
      cls := None;
      while |t| > 0
        invariant ResolveType(types, t) == ResolveType(types, templateType)
        decreases |t|
      {
        if t in types {
          return Some(types[t]);
        }
        t := t[..|t| - 1];
      }
    }

    /**
     * loadTemplate(class, definition): the cached instance if any; else the
     * class of the longest registered prefix of its type (unknown: invalid,
     * before any lock); a name already locked is a parent loop; otherwise the
     * template is built under its lock.
     */
    method LoadTemplate(world: Catalogue, def: Definition) returns (r: Result<Instance>)
      modifies this
      ensures locks == old(locks) && types == old(types) && loaders == old(loaders)
      ensures forall k :: k in old(instances) ==> k in instances && instances[k] == old(instances)[k]
      ensures forall k :: k in old(locks) && k !in old(instances) ==> k !in instances
      ensures def.fullName in old(instances) ==> r == Ok(old(instances)[def.fullName]) && instances == old(instances)
      ensures def.fullName !in old(instances) && ResolveType(types, def.templateType).None? ==>
        r == Err(InvalidTemplate) && instances == old(instances)
      ensures def.fullName !in old(instances) && def.fullName in old(locks) ==>
        r == Err(InvalidTemplate) && instances == old(instances)
      ensures def.fullName !in old(instances) && r.Ok? ==>
        def.fullName in instances && instances[def.fullName] == r.value && r.value.fullName == def.fullName &&
        Some(r.value.cls) == ResolveType(types, def.templateType)
      ensures def.fullName !in old(instances) && r.Err? ==> def.fullName !in instances
      ensures (def.fullName !in old(instances) && r.Err? && ResolveType(types, def.templateType).Some? &&
               def.fullName !in old(locks)) ==> r.error.Wrapped?
      ensures (def.fullName !in old(instances) && ResolveType(types, def.templateType).Some? &&
               def.fullName !in old(locks) && def.fullName in world &&
               ParentLoop(world, def.fullName, old(locks), old(instances))) ==>
        r == Err(Wrapped(InvalidTemplate))
      ensures OnCycle(world, def.fullName, old(instances)) ==> r.Err?
      ensures Grows(world, old(instances), instances, old(rank), rank, old(clock), clock)
      decreases |(world.Keys + {def.fullName}) - Seen(locks)|, 2
    {
      if def.fullName in instances {
        return Ok(instances[def.fullName]);
      }
      var cls := FindTemplateType(def.templateType);
      if cls.None? {
        return Err(InvalidTemplate);
      }
      if def.fullName in locks {
        return Err(InvalidTemplate);
      }
      r := BuildLocked(world, def, cls.value);
    }

    /**
     * The locked part of loadTemplate: the name is locked, the constructor
     * runs, a success is cached, and the lock is released whatever happens.
     * Whatever the constructor throws comes back wrapped.
     */
    method BuildLocked(world: Catalogue, def: Definition, cls: ClassId) returns (r: Result<Instance>)
      requires def.fullName !in locks && def.fullName !in instances
      modifies this
      ensures locks == old(locks) && types == old(types) && loaders == old(loaders)
      ensures forall k :: k in old(instances) ==> k in instances && instances[k] == old(instances)[k]
      ensures forall k :: k in old(locks) && k !in old(instances) ==> k !in instances
      ensures r.Ok? ==>
        def.fullName in instances && instances[def.fullName] == r.value &&
        r.value.fullName == def.fullName && r.value.cls == cls
      ensures r.Err? ==> def.fullName !in instances && r.error.Wrapped?
      ensures def.fullName in world && ParentLoop(world, def.fullName, old(locks), old(instances)) ==>
        r == Err(Wrapped(InvalidTemplate))
      ensures OnCycle(world, def.fullName, old(instances)) ==> r.Err?
      ensures Grows(world, old(instances), instances, old(rank), rank, old(clock), clock)
      decreases |(world.Keys + {def.fullName}) - Seen(locks)|, 1
    {
      ghost var before := locks;
      locks := locks + [def.fullName];
      BudgetShrinks(world, before, def.fullName);
      LoopSurvivesLock(world, def.fullName, before, instances);
      var built := Construct(world, def, cls);
      Release(def.fullName, before);
      if built.Err? {
        return Err(Wrapped(built.error));
      }
      Cache(world, def.fullName, built.value, old(instances), old(rank), old(clock));
      return built;
    }

    /** Queue.remove on the lock list: the name appended last comes off again. */
    method Release(name: string, ghost before: seq<string>)
      requires name !in before && locks == before + [name]
      modifies this
      ensures locks == before
      ensures instances == old(instances) && types == old(types) && loaders == old(loaders)
      ensures rank == old(rank) && clock == old(clock)
    {
      RemoveAppended(before, name);
      locks := Remove(locks, name);
    }

    /**
     * A successful build is cached under its name, at the next step; so the
     * name cannot lie on a parent cycle of templates uncached in `base`.
     */
    method Cache(world: Catalogue, name: string, built: Instance,
                 ghost base: map<string, Instance>, ghost rank0: map<string, nat>, ghost lo: nat)
      requires name !in instances && forall k :: k in base ==> k in instances
      requires name in world ==> forall p :: p in world[name].parents ==> p in instances
      requires Grows(world, base, instances, rank0, rank, lo, clock)
      modifies this
      ensures instances == old(instances)[name := built]
      ensures locks == old(locks) && types == old(types) && loaders == old(loaders)
      ensures Grows(world, base, instances, rank0, rank, lo, clock)
      ensures !OnCycle(world, name, base)
    {
      GrowsCache(world, base, instances, rank0, rank, lo, clock, name, built);
      instances := instances[name := built];
      rank := rank[name := clock];
      clock := clock + 1;
      FreshNotOnCycle(world, base, instances, rank0, rank, lo, clock, name);
    }

    /**
     * The constructor of `cls` for `def`, called while its name is locked.
     * It is taken to load each parent in turn back through loadTemplate with
     * the parent's definition (an unknown parent is NoSuchTemplate); the
     * first failure is thrown unchanged.
     */
    method Construct(world: Catalogue, def: Definition, cls: ClassId) returns (r: Result<Instance>)
      requires def.fullName in locks
      modifies this
      ensures locks == old(locks) && types == old(types) && loaders == old(loaders)
      ensures forall k :: k in old(instances) ==> k in instances && instances[k] == old(instances)[k]
      ensures forall k :: k in old(locks) && k !in old(instances) ==> k !in instances
      ensures r.Ok? ==> r.value.fullName == def.fullName && r.value.cls == cls
      ensures def.fullName in world && ParentLoop(world, def.fullName, old(locks), old(instances)) ==>
        r == Err(InvalidTemplate)
      ensures r.Ok? && def.fullName in world ==> forall p :: p in world[def.fullName].parents ==> p in instances
      ensures Grows(world, old(instances), instances, old(rank), rank, old(clock), clock)
      decreases |world.Keys - Seen(locks)|, 4
    {
      if def.fullName !in world {
        return Ok(Instance(def.fullName, cls, []));
      }
      var c := world[def.fullName];
      var loaded: seq<Instance> := [];
      var i := 0;
      while i < |c.parents|
        invariant i <= |c.parents|
        invariant locks == old(locks) && types == old(types) && loaders == old(loaders)
        invariant forall k :: k in old(instances) ==> k in instances && instances[k] == old(instances)[k]
        invariant forall k :: k in old(locks) && k !in old(instances) ==> k !in instances
        invariant i > 0 ==> !ParentLoop(world, def.fullName, old(locks), old(instances))
        invariant forall j :: 0 <= j < i ==> c.parents[j] in instances
        invariant Grows(world, old(instances), instances, old(rank), rank, old(clock), clock)
        decreases |c.parents| - i
      {
        var q := c.parents[i];
        if q !in world {
          return Err(NoSuchTemplate);
        }
        var p := LoadParent(world, q, old(instances), old(rank), old(clock));
        if p.Err? {
          return Err(p.error);
        }
        loaded := loaded + [p.value];
        i := i + 1;
      }
      if c.failure.Some? {
        return Err(c.failure.value);
      }
      return Ok(Instance(def.fullName, cls, loaded));
    }

    /**
     * One parent loaded from a constructor: loadTemplate on its catalogued
     * definition. A parent that is locked and uncached is refused, and a
     * loaded parent is cached.
     */
    method LoadParent(world: Catalogue, q: string,
                      ghost base: map<string, Instance>, ghost rank0: map<string, nat>, ghost lo: nat)
      returns (p: Result<Instance>)
      requires q in world && forall k :: k in base ==> k in instances
      requires Grows(world, base, instances, rank0, rank, lo, clock)
      modifies this
      ensures locks == old(locks) && types == old(types) && loaders == old(loaders)
      ensures forall k :: k in old(instances) ==> k in instances && instances[k] == old(instances)[k]
      ensures forall k :: k in old(locks) && k !in old(instances) ==> k !in instances
      ensures p.Ok? ==> q in instances
      ensures q !in old(instances) && q in old(locks) ==> p == Err(InvalidTemplate)
      ensures Grows(world, base, instances, rank0, rank, lo, clock)
      decreases |world.Keys - Seen(locks)|, 3
    {
      SeenWithin(world, locks, q);
      ghost var instances1, rank1, clock1 := instances, rank, clock;
      p := LoadTemplate(world, Definition(q, world[q].templateType));
      GrowsCompose(world, base, instances1, instances, rank0, rank1, rank, lo, clock1, clock);
    }
  }

  /** The definitions the loaders in `order` find, concatenated in that order. */
  function FoundBy(loaders: map<string, Loader>, order: seq<string>, name: string): seq<Definition>
    requires forall k :: k in order ==> k in loaders
  {
    if order == [] then []
    else FoundBy(loaders, order[..|order| - 1], name) + loaders[order[|order| - 1]].find(name)
  }

  /** A definition is found exactly when some registered loader in the order finds it. */
  lemma {:induction false} FoundByContents(loaders: map<string, Loader>, order: seq<string>, name: string, d: Definition)
    requires forall k :: k in order ==> k in loaders
    ensures d in FoundBy(loaders, order, name) <==> exists k :: k in order && d in loaders[k].find(name)
  {
    if order != [] {
      var init := order[..|order| - 1];
      FoundByContents(loaders, init, name, d);
      assert forall k :: k in order <==> k in init || k == order[|order| - 1];
    }
  }

  /**
   * The first parent of a catalogued template is a template that is not
   * cached, whose type resolves, and that is locked already or is the
   * template itself: loading it again is a parent loop.
   */
  predicate ParentLoop(world: Catalogue, name: string, locks: seq<string>, instances: map<string, Instance>)
    requires name in world
  {
    var c := world[name];
    |c.parents| > 0 && c.parents[0] in world && c.parents[0] !in instances &&
    (c.parents[0] in locks || c.parents[0] == name)
  }

  /**
   * The instances cached since `base` were cached one step at a time, each
   * after all of its parents: the steps of the instances in `base` are
   * kept, every new instance has a step in [lo, hi), and each parent of a
   * new instance is in `base` or was cached at an earlier step.
   */
  ghost predicate Grows(world: Catalogue, base: map<string, Instance>, instances: map<string, Instance>,
                        rank0: map<string, nat>, rank: map<string, nat>, lo: nat, hi: nat)
  {
    lo <= hi &&
    (forall k :: k in base && k in rank0 ==> k in rank && rank[k] == rank0[k]) &&
    (forall k :: k in instances && k !in base ==> k in rank && lo <= rank[k] < hi) &&
    (forall k, p :: k in instances && k !in base && k in world && p in world[k].parents ==>
      p in base || (p in instances && p in rank && k in rank && rank[p] < rank[k]))
  }

  /** Two stretches of caching, one after the other, are one stretch. */
  lemma GrowsCompose(world: Catalogue, b0: map<string, Instance>, i1: map<string, Instance>, i2: map<string, Instance>,
                     r0: map<string, nat>, r1: map<string, nat>, r2: map<string, nat>, c0: nat, c1: nat, c2: nat)
    requires forall k :: k in b0 ==> k in i1
    requires forall k :: k in i1 ==> k in i2
    requires Grows(world, b0, i1, r0, r1, c0, c1)
    requires Grows(world, i1, i2, r1, r2, c1, c2)
    ensures Grows(world, b0, i2, r0, r2, c0, c2)
  {
    forall k | k in b0 && k in r0
      ensures k in r2 && r2[k] == r0[k]
    {
      assert k in i1 && k in r1;
    }
    forall k | k in i2 && k !in b0
      ensures k in r2 && c0 <= r2[k] < c2
    {
      if k in i1 {
        assert k in r1 && r2[k] == r1[k];
      }
    }
    forall k, p | k in i2 && k !in b0 && k in world && p in world[k].parents
      ensures p in b0 || (p in i2 && p in r2 && k in r2 && r2[p] < r2[k])
    {
      if k in i1 {
        assert p in b0 || (p in i1 && p in r1 && k in r1 && r1[p] < r1[k]);
      } else if p in i1 && p !in b0 {
        assert r2[p] == r1[p] < c1 <= r2[k];
      }
    }
  }

  /** Caching a name whose parents are all cached, at the next step, extends the stretch. */
  lemma GrowsCache(world: Catalogue, b: map<string, Instance>, i1: map<string, Instance>,
                   r0: map<string, nat>, r1: map<string, nat>, c0: nat, c1: nat, name: string, v: Instance)
    requires Grows(world, b, i1, r0, r1, c0, c1)
    requires forall k :: k in b ==> k in i1
    requires name !in i1
    requires name in world ==> forall p :: p in world[name].parents ==> p in i1
    ensures Grows(world, b, i1[name := v], r0, r1[name := c1], c0, c1 + 1)
  {
  }

  /** A chain of catalogued templates, none cached, each a parent of the one before. */
  ghost predicate Chain(world: Catalogue, instances: map<string, Instance>, w: seq<string>) {
    |w| > 0 && (forall i :: 0 <= i < |w| ==> w[i] in world && w[i] !in instances) &&
    forall i :: 0 <= i < |w| - 1 ==> w[i + 1] in world[w[i]].parents
  }

  /** Some name occurs twice. */
  predicate Repeats(w: seq<string>) {
    exists i, j :: 0 <= i < j < |w| && w[i] == w[j]
  }

  /**
   * Loading `name` meets a parent cycle: following parents from it through
   * catalogued templates not yet cached reaches a template that is its own
   * ancestor.
   */
  ghost predicate OnCycle(world: Catalogue, name: string, instances: map<string, Instance>) {
    exists w :: Chain(world, instances, w) && w[0] == name && Repeats(w)
  }

  /** Along a chain from a newly cached template, every template was cached, at ever earlier steps. */
  lemma {:induction false} ChainDescends(world: Catalogue, base: map<string, Instance>, instances: map<string, Instance>,
                                         r0: map<string, nat>, rank: map<string, nat>, lo: nat, hi: nat,
                                         w: seq<string>, i: nat)
    requires Grows(world, base, instances, r0, rank, lo, hi)
    requires Chain(world, base, w) && w[0] in instances && i < |w|
    ensures w[i] in instances && w[i] in rank
    ensures forall j :: 0 <= j < i ==> w[j] in rank && rank[w[i]] < rank[w[j]]
    decreases i
  {
    if i > 0 {
      ChainDescends(world, base, instances, r0, rank, lo, hi, w, i - 1);
      assert w[i] in world[w[i - 1]].parents;
    }
  }

  /** A template cached since `base` does not lie on a cycle of templates that were uncached in `base`. */
  lemma FreshNotOnCycle(world: Catalogue, base: map<string, Instance>, instances: map<string, Instance>,
                        r0: map<string, nat>, rank: map<string, nat>, lo: nat, hi: nat, name: string)
    requires Grows(world, base, instances, r0, rank, lo, hi)
    requires name in instances && name !in base
    ensures !OnCycle(world, name, base)
  {
    if OnCycle(world, name, base) {
      var w :| Chain(world, base, w) && w[0] == name && Repeats(w);
      var i, j :| 0 <= i < j < |w| && w[i] == w[j];
      ChainDescends(world, base, instances, r0, rank, lo, hi, w, j);
      assert false;
    }
  }

  /** Locking the name itself keeps a parent loop a loop. */
  lemma LoopSurvivesLock(world: Catalogue, name: string, locks: seq<string>, instances: map<string, Instance>)
    ensures name in world && ParentLoop(world, name, locks, instances) ==> ParentLoop(world, name, locks + [name], instances)
  {
  }

  /** Queue.remove(x): drops the first occurrence of x. */
  function Remove(s: seq<string>, x: string): seq<string> {
    if s == [] then []
    else if s[0] == x then s[1..]
    else [s[0]] + Remove(s[1..], x)
  }

  /** Removing a name appended to a list that did not hold it gives the list back. */
  lemma {:induction false} RemoveAppended(s: seq<string>, x: string)
    requires x !in s
    ensures Remove(s + [x], x) == s
  {
    if s != [] {
      assert (s + [x])[1..] == s[1..] + [x];
      RemoveAppended(s[1..], x);
    }
  }

  /** Locking a name not yet locked shrinks the budget of names left to lock. */
  lemma BudgetShrinks(world: Catalogue, locks: seq<string>, x: string)
    requires x !in locks
    ensures |world.Keys - Seen(locks + [x])| < |(world.Keys + {x}) - Seen(locks)|
  {
    assert Seen(locks + [x]) == Seen(locks) + {x};
    assert (world.Keys + {x}) - Seen(locks) == (world.Keys - Seen(locks + [x])) + {x};
  }

  /** A catalogued name adds nothing to the catalogue's budget. */
  lemma SeenWithin(world: Catalogue, locks: seq<string>, q: string)
    requires q in world
    ensures |(world.Keys + {q}) - Seen(locks)| == |world.Keys - Seen(locks)|
  {
    assert world.Keys + {q} == world.Keys;
  }

  /** A type with a suffix resolves to the class registered for its prefix. */
  lemma ResolveByPrefixExample()
    ensures ResolveType(map["server" := "ServerTemplate"], "server-vanilla") == Some("ServerTemplate")
  {
    var types := map["server" := "ServerTemplate"];
    var t := "server-vanilla";
    assert t[..13] == "server-vanill" && t[..13][..12] == "server-vanil" && t[..13][..12][..11] == "server-vani";
    assert ResolveType(types, "server-vani") == ResolveType(types, "server-van") by {
      assert "server-vani"[..10] == "server-van";
    }
    assert ResolveType(types, "server-van") == ResolveType(types, "server-va") by {
      assert "server-van"[..9] == "server-va";
    }
    assert ResolveType(types, "server-va") == ResolveType(types, "server-v") by {
      assert "server-va"[..8] == "server-v";
    }
    assert ResolveType(types, "server-v") == ResolveType(types, "server-") by {
      assert "server-v"[..7] == "server-";
    }
    assert ResolveType(types, "server-") == ResolveType(types, "server") by {
      assert "server-"[..6] == "server";
    }
  }

  /** A template that names itself as its first parent fails with the wrapped parent-loop error. */
  method SelfParentExample() returns (r: Result<Instance>)
    ensures r == Err(Wrapped(InvalidTemplate))
  {
    var manager := new TemplateManager();
    manager.RegisterTemplateType("server", "ServerTemplate");
    var world := map["server:a@1" := Construction("server", ["server:a@1"], None)];
    ResolveByPrefixExample();
    r := manager.LoadTemplate(world, Definition("server:a@1", "server-vanilla"));
  }

  /**
   * A loop through a later parent, two levels deep: a names b, then c, and
   * c names a. The first parent is no loop, yet loading a fails.
   */
  method LaterParentLoopExample() returns (r: Result<Instance>)
    ensures r.Err?
  {
    var manager := new TemplateManager();
    manager.RegisterTemplateType("server", "ServerTemplate");
    var world := map["server:a@1" := Construction("server", ["server:b@1", "server:c@1"], None),
                     "server:b@1" := Construction("server", [], None),
                     "server:c@1" := Construction("server", ["server:a@1"], None)];
    var w := ["server:a@1", "server:c@1", "server:a@1"];
    assert Chain(world, map[], w);
    assert w[0] == w[2];
    r := manager.LoadTemplate(world, Definition("server:a@1", "server"));
  }
}
