/**
 * api/Template: a template node with its resolved parents, and the
 * depth-first walk over it and its ancestors that every "first definition
 * wins" lookup reads.
 *
 * Templates refer to their parents by reference, so the model keeps them in
 * an arena: a map from an identity to the template, in which every parent
 * reference resolves.
 */
module ApiTemplates {
  import opened Wrappers
  import opened Json

  /** The identity of a template object. */
  type TemplateId = nat

  /** A constructed template: its document, its name and its parents in document order. */
  datatype Template = Template(node: Json, name: string, parents: seq<TemplateId>)

  /** The templates in memory, by identity. */
  type Arena = map<TemplateId, Template>

  /** Every parent reference of every template resolves. */
  predicate Closed(arena: Arena) {
    forall t, i :: t in arena && 0 <= i < |arena[t].parents| ==> arena[t].parents[i] in arena
  }

  /**
   * new Template(node): the name is the "name" text (a missing name is a null
   * dereference); each element of "parents" is resolved by its text, in
   * order, and the first failure is thrown.
   */
  method NewTemplate(node: Json, resolve: string -> Result<TemplateId>) returns (r: Result<Template>)
    ensures r == TemplateOf(node, resolve)
  {
    if !Has(node, "name") {
      return Err(NullDereference);
    }
    var name := AsText(Get(node, "name").value);
    var parents: seq<TemplateId> := [];
    if Has(node, "parents") {
      var items := Elements(Get(node, "parents").value);
      var i := 0;
      while i < |items|
        invariant i <= |items|
        invariant ResolveAll(items[..i], resolve) == Ok(parents)
        decreases |items| - i
      {
        assert items[..i + 1][..i] == items[..i];
        var p := resolve(AsText(items[i]));
        if p.Err? {
          assert ResolveAll(items[..i + 1], resolve) == Err(p.error);
          FailurePersists(items, i + 1, resolve);
          return Err(p.error);
        }
        parents := parents + [p.value];
        i := i + 1;
      }
      assert items[..i] == items;
    }
    return Ok(Template(node, name, parents));
  }

  /** The parents resolved from the first |items| elements, or the first failure. */
  function ResolveAll(items: seq<Json>, resolve: string -> Result<TemplateId>): Result<seq<TemplateId>> {
    if items == [] then Ok([])
    else
      var init :- ResolveAll(items[..|items| - 1], resolve);
      var p :- resolve(AsText(items[|items| - 1]));
      Ok(init + [p])
  }

  /** The template new Template(node) builds, or what it throws. */
  function TemplateOf(node: Json, resolve: string -> Result<TemplateId>): Result<Template> {
    if !Has(node, "name") then Err(NullDereference)
    else
      var parents :- if Has(node, "parents") then ResolveAll(Elements(Get(node, "parents").value), resolve) else Ok([]);
      Ok(Template(node, AsText(Get(node, "name").value), parents))
  }

  /** Once a prefix of the parents fails to resolve, the whole list fails the same way. */
  lemma {:induction false} FailurePersists(items: seq<Json>, n: nat, resolve: string -> Result<TemplateId>)
    requires n <= |items| && ResolveAll(items[..n], resolve).Err?
    ensures ResolveAll(items, resolve) == ResolveAll(items[..n], resolve)
    decreases |items| - n
  {
    if n < |items| {
      assert items[..n + 1][..n] == items[..n];
      FailurePersists(items, n + 1, resolve);
    } else {
      assert items[..n] == items;
    }
  }

  /** When every parent resolves, they are the resolutions of the element texts, in order. */
  lemma {:induction false} ResolveAllInOrder(items: seq<Json>, resolve: string -> Result<TemplateId>)
    requires ResolveAll(items, resolve).Ok?
    ensures |ResolveAll(items, resolve).value| == |items|
    ensures forall i :: 0 <= i < |items| ==> resolve(AsText(items[i])) == Ok(ResolveAll(items, resolve).value[i])
  {
    if items != [] {
      var init := items[..|items| - 1];
      ResolveAllInOrder(init, resolve);
    }
  }

  /** The constructor's fields: the node kept as is, its name, and its parents in document order. */
  lemma TemplateOfFields(node: Json, resolve: string -> Result<TemplateId>)
    ensures !Has(node, "name") ==> TemplateOf(node, resolve) == Err(NullDereference)
    ensures TemplateOf(node, resolve).Ok? ==>
      var t := TemplateOf(node, resolve).value;
      t.node == node && t.name == AsText(Get(node, "name").value) &&
      (!Has(node, "parents") ==> t.parents == []) &&
      (Has(node, "parents") ==>
        var items := Elements(Get(node, "parents").value);
        |t.parents| == |items| && forall i :: 0 <= i < |items| ==> resolve(AsText(items[i])) == Ok(t.parents[i]))
  {
    if TemplateOf(node, resolve).Ok? && Has(node, "parents") {
      ResolveAllInOrder(Elements(Get(node, "parents").value), resolve);
    }
  }

  /** The distinct elements of a sequence. */
  function Seen<T>(s: seq<T>): set<T> {
    set x | x in s
  }

  /** No element occurs twice. */
  predicate Distinct<T(==)>(s: seq<T>) {
    forall i, j :: 0 <= i < j < |s| ==> s[i] != s[j]
  }

  /** The documents of the given templates. */
  function Nodes(arena: Arena, ts: set<TemplateId>): set<Json> {
    set t | t in ts && t in arena :: arena[t].node
  }

  /** A chain of templates, each one a parent of the one before. */
  predicate IsWalk(arena: Arena, w: seq<TemplateId>) {
    |w| > 0 && (forall i :: 0 <= i < |w| ==> w[i] in arena) &&
    forall i :: 0 <= i < |w| - 1 ==> w[i + 1] in arena[w[i]].parents
  }

  /** `to` is `from` or one of its ancestors. */
  ghost predicate Reachable(arena: Arena, from: TemplateId, to: TemplateId) {
    exists w :: IsWalk(arena, w) && w[0] == from && w[|w| - 1] == to
  }

  lemma ReachableSelf(arena: Arena, t: TemplateId)
    requires t in arena
    ensures Reachable(arena, t, t)
  {
    assert IsWalk(arena, [t]);
  }

  /** An ancestor of a parent is an ancestor. */
  lemma ReachableThroughParent(arena: Arena, t: TemplateId, p: TemplateId, a: TemplateId)
    requires t in arena && p in arena[t].parents && Reachable(arena, p, a)
    ensures Reachable(arena, t, a)
  {
    var w :| IsWalk(arena, w) && w[0] == p && w[|w| - 1] == a;
    var w' := [t] + w;
    assert forall i :: 0 < i < |w'| ==> w'[i] == w[i - 1];
    assert IsWalk(arena, w');
  }

  /**
   * getAllNodes(current) as a function: the nodes it returns and the
   * visited list it leaves. Nothing when the own node is already visited;
   * otherwise the walk over all the parents.
   */
  function Walk(arena: Arena, id: TemplateId, current: seq<Json>): (r: (seq<Json>, seq<Json>))
    requires Closed(arena) && id in arena
    ensures Seen(current) <= Seen(r.1)
    decreases |Nodes(arena, arena.Keys) - Seen(current)|, 1, 0
  {
    if arena[id].node in current then ([], current)
    else WalkPrefix(arena, id, |arena[id].parents|, current)
  }

  /**
   * The walk from template id over its first n parents: the own node
   * (added to the visited list), then, parent by parent, the parent's walk
   * from the visited list so far, appended to both lists.
   */
  function WalkPrefix(arena: Arena, id: TemplateId, n: nat, current: seq<Json>): (r: (seq<Json>, seq<Json>))
    requires Closed(arena) && id in arena && n <= |arena[id].parents| && arena[id].node !in current
    ensures Seen(current) + {arena[id].node} <= Seen(r.1)
    ensures |r.0| > 0 && r.0[0] == arena[id].node
    decreases |Nodes(arena, arena.Keys) - Seen(current)|, 0, n
  {
    var node := arena[id].node;
    if n == 0 then ([node], current + [node])
    else
      var prev := WalkPrefix(arena, id, n - 1, current);
      assert node in Nodes(arena, arena.Keys);
      MeasureShrinks(Nodes(arena, arena.Keys), Seen(current), Seen(prev.1), node);
      var sub := Walk(arena, arena[id].parents[n - 1], prev.1);
      SeenConcat(sub.1, sub.0);
      (prev.0 + sub.0, sub.1 + sub.0)
  }

  /** getAllNodes(): the walk from an empty visited list. */
  function AllNodes(arena: Arena, id: TemplateId): seq<Json>
    requires Closed(arena) && id in arena
  {
    Walk(arena, id, []).0
  }

  /** The walk over more parents extends the walk over fewer. */
  lemma {:induction false} WalkPrefixExtends(arena: Arena, id: TemplateId, n: nat, m: nat, current: seq<Json>)
    requires Closed(arena) && id in arena && n <= m <= |arena[id].parents| && arena[id].node !in current
    ensures WalkPrefix(arena, id, n, current).0 <= WalkPrefix(arena, id, m, current).0
    decreases m
  {
    if n < m {
      WalkPrefixExtends(arena, id, n, m - 1, current);
    }
  }

  /**
   * The order of getAllNodes: when the own node is not yet visited, the
   * walk is the own node, then the whole walk of the first parent, then
   * what the later parents add.
   */
  lemma WalkSegments(arena: Arena, id: TemplateId, current: seq<Json>)
    requires Closed(arena) && id in arena && arena[id].node !in current && |arena[id].parents| > 0
    ensures var first := Walk(arena, arena[id].parents[0], current + [arena[id].node]).0;
      [arena[id].node] + first <= Walk(arena, id, current).0
  {
    WalkPrefixExtends(arena, id, 1, |arena[id].parents|, current);
  }

  /**
   * What holds of a walk from template id begun with the visited list
   * `current`, once the own node is taken: `visited` has grown by exactly
   * the nodes of `result`, which holds no node twice and none of `current`,
   * starts with the own node, and is the set of nodes of the `expanded`
   * templates, each an ancestor of id whose parents are all visited (id's
   * own parents excepted, as they are still being walked).
   */
  ghost predicate WalkState(arena: Arena, id: TemplateId, current: seq<Json>,
                            result: seq<Json>, visited: seq<Json>, expanded: set<TemplateId>)
    requires Closed(arena) && id in arena
  {
    Seen(visited) == Seen(current) + Seen(result) &&
    Distinct(result) && Seen(result) !! Seen(current) &&
    |result| > 0 && result[0] == arena[id].node && id in expanded &&
    expanded <= arena.Keys && Seen(result) == Nodes(arena, expanded) &&
    (forall t, k :: t in expanded && t != id && 0 <= k < |arena[t].parents| ==>
      arena[arena[t].parents[k]].node in Seen(visited)) &&
    (forall t :: t in expanded ==> Reachable(arena, id, t))
  }

  /**
   * getAllNodes(current): nothing when the own node is already in
   * `current`; otherwise the own node, then each parent's nodes in parent
   * order, with `current` (returned as `visited`) growing as it goes.
   */
  method AllNodesFrom(arena: Arena, id: TemplateId, current: seq<Json>) returns (result: seq<Json>, visited: seq<Json>)
    requires Closed(arena) && id in arena
    ensures result == Walk(arena, id, current).0 && visited == Walk(arena, id, current).1
    decreases |Nodes(arena, arena.Keys) - Seen(current)|
  {
    var node := arena[id].node;
    if node in current {
      return [], current;
    }
    result := [node];
    visited := current + [node];
    var parents := arena[id].parents;
    assert node in Nodes(arena, arena.Keys);
    var i := 0;
    while i < |parents|
      invariant i <= |parents|
      invariant result == WalkPrefix(arena, id, i, current).0 && visited == WalkPrefix(arena, id, i, current).1
      decreases |parents| - i
    {
      MeasureShrinks(Nodes(arena, arena.Keys), Seen(current), Seen(visited), node);
      var parentNodes, visitedNext := AllNodesFrom(arena, parents[i], visited);
      result := result + parentNodes;
      visited := visitedNext + parentNodes;
      i := i + 1;
    }
  }

  /**
   * What getAllNodes(current) returns: nodes not in `current`, none twice,
   * the own node first unless already visited, and exactly the nodes of
   * the `expanded` templates, each an ancestor of id whose parents' nodes
   * all end up visited; `visited` grows by exactly those nodes.
   */
  ghost predicate WalkResult(arena: Arena, id: TemplateId, current: seq<Json>,
                             result: seq<Json>, visited: seq<Json>, expanded: set<TemplateId>)
    requires Closed(arena) && id in arena
  {
    Seen(visited) == Seen(current) + Seen(result) && Distinct(result) && Seen(result) !! Seen(current) &&
    (arena[id].node in current ==> result == [] && visited == current && expanded == {}) &&
    (arena[id].node !in current ==> |result| > 0 && result[0] == arena[id].node && id in expanded) &&
    expanded <= arena.Keys && Seen(result) == Nodes(arena, expanded) &&
    (forall t, i :: t in expanded && 0 <= i < |arena[t].parents| ==> arena[arena[t].parents[i]].node in Seen(visited)) &&
    (forall t :: t in expanded ==> Reachable(arena, id, t))
  }

  /** The walk state once the own node and the first n parents are walked, those parents' nodes visited. */
  ghost predicate PrefixState(arena: Arena, id: TemplateId, n: nat, current: seq<Json>,
                              result: seq<Json>, visited: seq<Json>, expanded: set<TemplateId>)
    requires Closed(arena) && id in arena && n <= |arena[id].parents|
  {
    WalkState(arena, id, current, result, visited, expanded) &&
    forall k :: 0 <= k < n ==> arena[arena[id].parents[k]].node in Seen(visited)
  }

  /** The walk from template id meets WalkResult. */
  lemma {:induction false} WalkFacts(arena: Arena, id: TemplateId, current: seq<Json>)
    returns (result: seq<Json>, visited: seq<Json>, expanded: set<TemplateId>)
    requires Closed(arena) && id in arena
    ensures result == Walk(arena, id, current).0 && visited == Walk(arena, id, current).1
    ensures WalkResult(arena, id, current, result, visited, expanded)
    decreases |Nodes(arena, arena.Keys) - Seen(current)|, 1, 0
  {
    if arena[id].node in current {
      result, visited, expanded := [], current, {};
    } else {
      result, visited, expanded := WalkPrefixFacts(arena, id, |arena[id].parents|, current);
      WalkDone(arena, id, current, result, visited, expanded);
    }
  }

  /** A walk over all the parents meets WalkResult. */
  lemma WalkDone(arena: Arena, id: TemplateId, current: seq<Json>,
                 result: seq<Json>, visited: seq<Json>, expanded: set<TemplateId>)
    requires Closed(arena) && id in arena && arena[id].node !in current
    requires PrefixState(arena, id, |arena[id].parents|, current, result, visited, expanded)
    ensures WalkResult(arena, id, current, result, visited, expanded)
  {
  }

  /** The walk over the own node and the first n parents meets PrefixState. */
  lemma {:induction false} WalkPrefixFacts(arena: Arena, id: TemplateId, n: nat, current: seq<Json>)
    returns (result: seq<Json>, visited: seq<Json>, expanded: set<TemplateId>)
    requires Closed(arena) && id in arena && n <= |arena[id].parents| && arena[id].node !in current
    ensures result == WalkPrefix(arena, id, n, current).0 && visited == WalkPrefix(arena, id, n, current).1
    ensures PrefixState(arena, id, n, current, result, visited, expanded)
    decreases |Nodes(arena, arena.Keys) - Seen(current)|, 0, n
  {
    var node := arena[id].node;
    if n == 0 {
      result, visited := [node], current + [node];
      expanded := PrefixStart(arena, id, current);
    } else {
      var prevResult, prevVisited, before := WalkPrefixFacts(arena, id, n - 1, current);
      WalkPrefixUnfold(arena, id, n, current, prevResult, prevVisited);
      assert node in Nodes(arena, arena.Keys);
      MeasureShrinks(Nodes(arena, arena.Keys), Seen(current), Seen(prevVisited), node);
      var parentNodes, visitedNext, added := WalkFacts(arena, arena[id].parents[n - 1], prevVisited);
      expanded := PrefixStep(arena, id, n, current, prevResult, prevVisited, before, parentNodes, visitedNext, added);
      result, visited := prevResult + parentNodes, visitedNext + parentNodes;
    }
  }

  /** One step of WalkPrefix: the walk over n - 1 parents, then parent number n - 1's walk appended to both lists. */
  lemma WalkPrefixUnfold(arena: Arena, id: TemplateId, n: nat, current: seq<Json>, prevResult: seq<Json>, prevVisited: seq<Json>)
    requires Closed(arena) && id in arena && 0 < n <= |arena[id].parents| && arena[id].node !in current
    requires prevResult == WalkPrefix(arena, id, n - 1, current).0 && prevVisited == WalkPrefix(arena, id, n - 1, current).1
    ensures Seen(current) + {arena[id].node} <= Seen(prevVisited)
    ensures WalkPrefix(arena, id, n, current).0 == prevResult + Walk(arena, arena[id].parents[n - 1], prevVisited).0
    ensures WalkPrefix(arena, id, n, current).1 ==
      Walk(arena, arena[id].parents[n - 1], prevVisited).1 + Walk(arena, arena[id].parents[n - 1], prevVisited).0
  {
  }

  /** The own node alone meets PrefixState with no parent walked. */
  lemma PrefixStart(arena: Arena, id: TemplateId, current: seq<Json>) returns (expanded: set<TemplateId>)
    requires Closed(arena) && id in arena && arena[id].node !in current
    ensures PrefixState(arena, id, 0, current, [arena[id].node], current + [arena[id].node], expanded)
  {
    ReachableSelf(arena, id);
    assert Nodes(arena, {id}) == {arena[id].node};
    SeenConcat(current, [arena[id].node]);
    expanded := {id};
  }

  /** Appending the walk of parent number n - 1 takes PrefixState from n - 1 parents to n. */
  lemma PrefixStep(arena: Arena, id: TemplateId, n: nat, current: seq<Json>,
                   result: seq<Json>, visited: seq<Json>, before: set<TemplateId>,
                   parentNodes: seq<Json>, visitedNext: seq<Json>, added: set<TemplateId>)
    returns (expanded: set<TemplateId>)
    requires Closed(arena) && id in arena && 0 < n <= |arena[id].parents|
    requires PrefixState(arena, id, n - 1, current, result, visited, before)
    requires WalkResult(arena, arena[id].parents[n - 1], visited, parentNodes, visitedNext, added)
    ensures PrefixState(arena, id, n, current, result + parentNodes, visitedNext + parentNodes, expanded)
  {
    var p := arena[id].parents[n - 1];
    WalkStateStep(arena, id, p, current, result, visited, before, parentNodes, visitedNext, added);
    ParentsStayVisited(arena, arena[id].parents, n - 1, visited, visitedNext + parentNodes);
    expanded := before + added;
  }

  /** Parents visited before one more parent's walk stay visited, and so does that parent. */
  lemma ParentsStayVisited(arena: Arena, parents: seq<TemplateId>, i: nat, visited: seq<Json>, visited': seq<Json>)
    requires i < |parents| && forall k :: 0 <= k < |parents| ==> parents[k] in arena
    requires forall k :: 0 <= k < i ==> arena[parents[k]].node in Seen(visited)
    requires Seen(visited) <= Seen(visited') && arena[parents[i]].node in Seen(visited')
    ensures forall k :: 0 <= k < i + 1 ==> arena[parents[k]].node in Seen(visited')
  {
  }

  /** The walk state survives appending what the walk from parent p added. */
  lemma WalkStateStep(arena: Arena, id: TemplateId, p: TemplateId, current: seq<Json>,
                      result: seq<Json>, visited: seq<Json>, expanded: set<TemplateId>,
                      parentNodes: seq<Json>, visitedNext: seq<Json>, parentExpanded: set<TemplateId>)
    requires Closed(arena) && id in arena && p in arena[id].parents
    requires WalkState(arena, id, current, result, visited, expanded)
    requires Seen(visitedNext) == Seen(visited) + Seen(parentNodes)
    requires Distinct(parentNodes) && Seen(parentNodes) !! Seen(visited)
    requires arena[p].node in visited ==> parentNodes == [] && visitedNext == visited
    requires arena[p].node !in visited ==> |parentNodes| > 0 && parentNodes[0] == arena[p].node
    requires parentExpanded <= arena.Keys && Seen(parentNodes) == Nodes(arena, parentExpanded)
    requires forall t, i :: t in parentExpanded && 0 <= i < |arena[t].parents| ==>
      arena[arena[t].parents[i]].node in Seen(visitedNext)
    requires forall t :: t in parentExpanded ==> Reachable(arena, p, t)
    ensures WalkState(arena, id, current, result + parentNodes, visitedNext + parentNodes, expanded + parentExpanded)
    ensures Seen(visited) <= Seen(visitedNext + parentNodes) && arena[p].node in Seen(visitedNext + parentNodes)
  {
    forall t | t in parentExpanded
      ensures Reachable(arena, id, t)
    {
      ReachableThroughParent(arena, id, p, t);
    }
    SeenConcat(result, parentNodes);
    SeenConcat(visitedNext, parentNodes);
    DistinctConcat(result, parentNodes, visited);
    NodesUnion(arena, expanded, parentExpanded);
    if arena[p].node !in visited {
      assert parentNodes[0] in Seen(parentNodes);
    }
    assert (result + parentNodes)[0] == arena[id].node;
  }

  lemma SeenConcat<T>(a: seq<T>, b: seq<T>)
    ensures Seen(a + b) == Seen(a) + Seen(b)
  {
  }

  /** Joining two duplicate-free lists, the second avoiding everything the first holds, keeps them duplicate-free. */
  lemma DistinctConcat<T>(a: seq<T>, b: seq<T>, avoid: seq<T>)
    requires Distinct(a) && Distinct(b) && Seen(a) <= Seen(avoid) && Seen(b) !! Seen(avoid)
    ensures Distinct(a + b)
  {
    forall i, j | 0 <= i < j < |a + b|
      ensures (a + b)[i] != (a + b)[j]
    {
      if i < |a| && j >= |a| {
        assert (a + b)[i] in Seen(avoid);
        assert (a + b)[j] in Seen(b);
      }
    }
  }

  lemma NodesUnion(arena: Arena, s: set<TemplateId>, t: set<TemplateId>)
    ensures Nodes(arena, s + t) == Nodes(arena, s) + Nodes(arena, t)
  {
  }

  /** Adding a node of the arena not seen before shrinks the set of nodes left to visit. */
  lemma MeasureShrinks(all: set<Json>, before: set<Json>, after: set<Json>, x: Json)
    requires x in all && x !in before && before + {x} <= after
    ensures |all - after| < |all - before|
  {
    var rest := (all - before) - {x};
    SubsetSize(all - after, rest);
    assert rest + {x} == all - before;
  }

  lemma {:induction false} SubsetSize<T>(a: set<T>, b: set<T>)
    requires a <= b
    ensures |a| <= |b|
    decreases a
  {
    if a != {} {
      var x :| x in a;
      SubsetSize(a - {x}, b - {x});
    }
  }

  /** getAllNodes(): the walk from an empty visited list. */
  method GetAllNodes(arena: Arena, id: TemplateId) returns (result: seq<Json>)
    requires Closed(arena) && id in arena
    ensures result == AllNodes(arena, id)
    ensures |result| > 0 && result[0] == arena[id].node
    ensures Distinct(result)
    ensures forall x :: x in result ==> exists t :: Reachable(arena, id, t) && arena[t].node == x
    ensures Injective(arena) ==> forall t :: Reachable(arena, id, t) ==> arena[t].node in result
  {
    var visited;
    result, visited := AllNodesFrom(arena, id, []);
    ghost var walked, walkedVisited, expanded := WalkFacts(arena, id, []);
    assert Seen<Json>([]) == {};
    forall x | x in result
      ensures exists t :: Reachable(arena, id, t) && arena[t].node == x
    {
      assert x in Nodes(arena, expanded);
    }
    if Injective(arena) {
      ExpandedClosed(arena, result, visited, expanded);
      forall t | Reachable(arena, id, t)
        ensures arena[t].node in result
      {
        var w :| IsWalk(arena, w) && w[0] == id && w[|w| - 1] == t;
        WalkStaysIn(arena, expanded, w, |w| - 1);
        assert arena[t].node in Nodes(arena, expanded);
      }
    }
  }

  /**
   * With distinct documents, the templates a walk from an empty list
   * expanded are closed under taking parents.
   */
  lemma ExpandedClosed(arena: Arena, result: seq<Json>, visited: seq<Json>, expanded: set<TemplateId>)
    requires Closed(arena) && Injective(arena)
    requires Seen(visited) == Seen(result)
    requires expanded <= arena.Keys && Seen(result) == Nodes(arena, expanded)
    requires forall t, i :: t in expanded && 0 <= i < |arena[t].parents| ==> arena[arena[t].parents[i]].node in Seen(visited)
    ensures forall u, k :: u in expanded && 0 <= k < |arena[u].parents| ==> arena[u].parents[k] in expanded
  {
    forall u, k | u in expanded && 0 <= k < |arena[u].parents|
      ensures arena[u].parents[k] in expanded
    {
      var q := arena[u].parents[k];
      assert arena[q].node in Nodes(arena, expanded);
      var v :| v in expanded && v in arena && arena[v].node == arena[q].node;
    }
  }

  /** Distinct templates hold distinct documents. */
  predicate Injective(arena: Arena) {
    forall s, t :: s in arena && t in arena && s != t ==> arena[s].node != arena[t].node
  }

  /** A walk that starts in a parent-closed set of templates stays in it. */
  lemma {:induction false} WalkStaysIn(arena: Arena, ts: set<TemplateId>, w: seq<TemplateId>, k: nat)
    requires IsWalk(arena, w) && k < |w| && w[0] in ts && ts <= arena.Keys
    requires forall u, j :: u in ts && 0 <= j < |arena[u].parents| ==> arena[u].parents[j] in ts
    ensures w[k] in ts
  {
    if k > 0 {
      WalkStaysIn(arena, ts, w, k - 1);
      assert w[k] in arena[w[k - 1]].parents;
    }
  }
}
