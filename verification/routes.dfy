/**
 * The route table a resource tree produces (`router`, `_create_router`,
 * `_create_route_*`): which endpoints each resource registers, in which
 * order, under which path, and how child routers are mounted below their
 * parent.
 */
module Routes {
  import opened Results
  import opened Text
  import opened Resources
  import opened Params
  import opened Paths
  import opened Signatures
  import opened Security

  datatype HttpMethod = GET | POST | PATCH | PUT | DELETE

  /** One registered route: method, full path, the endpoint, its resource and parameters. */
  datatype Route = Route(
    verb: HttpMethod,
    path: string,
    endpoint: Endpoint,
    resource: Schema,
    params: seq<Param>,
    statusCode: Option<nat>)

  function MethodOf(e: Endpoint): HttpMethod
  {
    match e
    case ListEndpoint => GET
    case AggregateEndpoint => GET
    case PostEndpoint => POST
    case GetEndpoint => GET
    case PatchEndpoint => PATCH
    case PutEndpoint => PUT
    case DeleteEndpoint => DELETE
  }

  const AggregatePath: string := "/aggregate/" + ("{" + "aggregation_function" + "}" + ("/" + ("{" + "field" + "}" + "")))

  /** The path of an endpoint relative to its router's prefix. */
  function LocalPath(s: Schema, e: Endpoint): string
  {
    match e
    case ListEndpoint => ""
    case PostEndpoint => ""
    case AggregateEndpoint => AggregatePath
    case _ => IdFieldPlaceholder(s)
  }

  /** Registration order of the endpoints within one router. */
  function Rank(e: Endpoint): nat
  {
    match e
    case ListEndpoint => 0
    case AggregateEndpoint => 1
    case PostEndpoint => 2
    case GetEndpoint => 3
    case PatchEndpoint => 4
    case PutEndpoint => 5
    case DeleteEndpoint => 6
  }

  const AllEndpoints: seq<Endpoint> :=
    [ListEndpoint, AggregateEndpoint, PostEndpoint, GetEndpoint, PatchEndpoint, PutEndpoint, DeleteEndpoint]

  /**
   * Whether a resource registers an endpoint: list, create, get and the two
   * updates need a declared schema (neither unset nor `...`), the aggregate
   * endpoint needs an aggregate-fields enum, delete needs the `delete` flag.
   */
  predicate Gate(s: Schema, e: Endpoint)
  {
    match e
    case ListEndpoint => Enabled(s.list)
    case AggregateEndpoint => s.aggregateFields.Some?
    case PostEndpoint => Enabled(s.create)
    case GetEndpoint => Enabled(s.get)
    case PatchEndpoint => Enabled(s.update)
    case PutEndpoint => Enabled(s.update)
    case DeleteEndpoint => s.delete
  }

  /** The endpoints of `es` a resource registers, in the order of `es`. */
  function Keep(s: Schema, es: seq<Endpoint>): (r: seq<Endpoint>)
    ensures forall e :: e in r <==> e in es && Gate(s, e)
  {
    if |es| == 0 then [] else (if Gate(s, es[0]) then [es[0]] else []) + Keep(s, es[1..])
  }

  /** The endpoints `_create_router` registers for a resource, in registration order. */
  function Registered(s: Schema): seq<Endpoint>
  {
    Keep(s, AllEndpoints)
  }

  /** `add_api_route` for one endpoint under a router prefix; delete answers 204. */
  function MakeRoute(s: Schema, prefix: string, e: Endpoint): Route
  {
    Route(MethodOf(e), prefix + LocalPath(s, e), e, s, Signature(s, e),
          if e.DeleteEndpoint? then Some(204) else None)
  }

  /**
   * The routes of one router before any child is mounted: one per gated
   * endpoint and no other, each under the router's prefix.
   */
  function OwnRoutes(s: Schema): (r: seq<Route>)
    ensures |r| == |Registered(s)|
    ensures forall i :: 0 <= i < |r| ==> r[i] == MakeRoute(s, RouterPrefix(s), Registered(s)[i])
    ensures forall e :: Gate(s, e) <==> exists i :: 0 <= i < |r| && r[i].endpoint == e
    ensures forall i :: 0 <= i < |r| ==> r[i].resource == s && RouterPrefix(s) <= r[i].path
  {
    RegisteredEndpoints(s);
    var es := Registered(s);
    var r := seq(|es|, i requires 0 <= i < |es| => MakeRoute(s, RouterPrefix(s), es[i]));
    assert forall e :: e in es ==> exists i :: 0 <= i < |r| && r[i].endpoint == e by {
      forall e | e in es ensures exists i :: 0 <= i < |r| && r[i].endpoint == e {
        var i :| 0 <= i < |es| && es[i] == e;
        assert r[i].endpoint == e;
      }
    }
    r
  }

  /** `include_router`: the included routes, with the including router's prefix put before their paths. */
  function Mount(prefix: string, rs: seq<Route>): (r: seq<Route>)
    ensures |r| == |rs|
    ensures forall i :: 0 <= i < |rs| ==> r[i] == rs[i].(path := prefix + rs[i].path)
  {
    seq(|rs|, i requires 0 <= i < |rs| => rs[i].(path := prefix + rs[i].path))
  }

  /**
   * `router`: the resource's own routes, then every child's router, in
   * order; each child route lies under this router's prefix.
   */
  function Routes(t: SchemaTree): (r: seq<Route>)
    ensures |OwnRoutes(t.schema)| <= |r| && r[..|OwnRoutes(t.schema)|] == OwnRoutes(t.schema)
    ensures forall i :: |OwnRoutes(t.schema)| <= i < |r| ==> RouterPrefix(t.schema) <= r[i].path
    decreases t, |t.children| + 1
  {
    var own := OwnRoutes(t.schema);
    var mounted := Mount(RouterPrefix(t.schema), ChildRoutes(t, 0));
    var r := own + mounted;
    assert forall i :: |own| <= i < |r| ==> r[i] == mounted[i - |own|];
    r
  }

  /** The routes of the children from index `i` on, each with its own router prefix. */
  function ChildRoutes(t: SchemaTree, i: nat): seq<Route>
    requires i <= |t.children|
    decreases t, |t.children| - i
  {
    if i == |t.children| then [] else Routes(t.children[i]) + ChildRoutes(t, i + 1)
  }

  /** The resource `n` is one of the nodes of `t`. */
  ghost predicate InTree(t: SchemaTree, n: Schema)
  {
    t.schema == n || exists i :: 0 <= i < |t.children| && InTree(t.children[i], n)
  }

  /**
   * Children are built with the node as their parent, the root has none,
   * and no resource or model name along the way contains a brace.
   */
  ghost predicate TreeWellFormed(t: SchemaTree)
  {
    && ChainWellFormed(t.schema)
    && forall i :: 0 <= i < |t.children| ==>
         t.children[i].schema.parent == Some(t.schema) && TreeWellFormed(t.children[i])
  }

  // ---------------------------------------------------------------------------
  // Which endpoints a router registers
  // ---------------------------------------------------------------------------

  /** An endpoint is registered exactly when its gate holds, and the order is the fixed registration order. */
  lemma RegisteredEndpoints(s: Schema)
    ensures forall e :: e in Registered(s) <==> Gate(s, e)
    ensures forall i, j :: 0 <= i < j < |Registered(s)| ==> Rank(Registered(s)[i]) < Rank(Registered(s)[j])
  {
    forall e ensures e in AllEndpoints { assert AllEndpoints[Rank(e)] == e; }
    KeepOrdered(s, AllEndpoints);
  }

  lemma {:induction false} KeepOrdered(s: Schema, es: seq<Endpoint>)
    requires forall i, j :: 0 <= i < j < |es| ==> Rank(es[i]) < Rank(es[j])
    ensures forall i, j :: 0 <= i < j < |Keep(s, es)| ==> Rank(Keep(s, es)[i]) < Rank(Keep(s, es)[j])
  {
    if |es| > 0 {
      var rest := Keep(s, es[1..]);
      KeepOrdered(s, es[1..]);
      forall e | e in rest ensures Rank(es[0]) < Rank(e) {
        var k :| 0 <= k < |es[1..]| && es[1..][k] == e;
        assert es[k + 1] == e;
      }
      if Gate(s, es[0]) {
        assert Keep(s, es) == [es[0]] + rest;
        ConsOrdered(es[0], rest);
      } else {
        assert Keep(s, es) == rest;
      }
    }
  }

  lemma ConsOrdered(x: Endpoint, rest: seq<Endpoint>)
    requires forall e :: e in rest ==> Rank(x) < Rank(e)
    requires forall i, j :: 0 <= i < j < |rest| ==> Rank(rest[i]) < Rank(rest[j])
    ensures forall i, j :: 0 <= i < j < |[x] + rest| ==> Rank(([x] + rest)[i]) < Rank(([x] + rest)[j])
  {
    var r := [x] + rest;
    forall i, j | 0 <= i < j < |r| ensures Rank(r[i]) < Rank(r[j]) {
      if i == 0 {
        assert r[j] == rest[j - 1] && rest[j - 1] in rest;
      } else {
        assert r[i] == rest[i - 1] && r[j] == rest[j - 1];
      }
    }
  }

  /** Every route answers 204 exactly when it is a DELETE, and names no status otherwise. */
  lemma DeleteStatus(t: SchemaTree)
    ensures forall r :: r in Routes(t) ==>
              (r.statusCode == Some(204) <==> r.verb == DELETE) && (r.verb != DELETE ==> r.statusCode.None?)
  {
    RouteShapes(t);
    forall r | r in Routes(t)
      ensures (r.statusCode == Some(204) <==> r.verb == DELETE) && (r.verb != DELETE ==> r.statusCode.None?)
    {
      assert RouteOfTree(t, r);
      assert r.verb == DELETE <==> r.endpoint.DeleteEndpoint?;
    }
  }

  // ---------------------------------------------------------------------------
  // Building the router: a repeated path-id name aborts it
  // ---------------------------------------------------------------------------

  /** Whether the endpoint `e` of `n` can be signed: its path ids have distinct names. */
  predicate Signable(n: Schema, e: Endpoint)
  {
    DistinctNames(PathSignatureId(n, IsItem(e)))
  }

  /** Signing the endpoints `es` of `s` in turn: the first refusal, or success. */
  function SignEach(s: Schema, es: seq<Endpoint>): (r: Result<(), BuildError>)
    ensures r.Success? <==> forall k :: 0 <= k < |es| ==> Signable(s, es[k])
  {
    if |es| == 0 then Success(())
    else
      var rest := SignEach(s, es[1..]);
      assert forall k :: 1 <= k < |es| ==> es[k] == es[1..][k - 1];
      match Sign(Signature(s, es[0]))
      case Failure(err) => Failure(err)
      case Success(_) => rest
  }

  /** A resource's own endpoints can all be signed exactly when every gated endpoint can. */
  lemma SignEachRegistered(s: Schema)
    ensures SignEach(s, Registered(s)).Success? <==> OwnSignable(s)
  {
    RegisteredEndpoints(s);
    var es := Registered(s);
    if SignEach(s, es).Success? {
      forall e | Gate(s, e) ensures Signable(s, e) {
        var k :| 0 <= k < |es| && es[k] == e;
      }
    }
  }

  /** No gated endpoint of any resource of `t` repeats a path-id name. */
  ghost predicate TreeSignable(t: SchemaTree)
  {
    forall n, e :: InTree(t, n) && Gate(n, e) ==> Signable(n, e)
  }

  /** Every gated endpoint of `s` itself can be signed. */
  ghost predicate OwnSignable(s: Schema)
  {
    forall e :: Gate(s, e) ==> Signable(s, e)
  }

  /** Every child tree of `t` from index `i` on is signable. */
  ghost predicate ChildrenSignable(t: SchemaTree, i: nat)
  {
    forall j :: i <= j < |t.children| ==> TreeSignable(t.children[j])
  }

  lemma ChildrenSignableStep(t: SchemaTree, i: nat)
    requires i < |t.children|
    ensures ChildrenSignable(t, i) <==> TreeSignable(t.children[i]) && ChildrenSignable(t, i + 1)
  {
  }

  /** A tree is signable exactly when its root's endpoints are and every child tree is. */
  lemma TreeSignableSplit(t: SchemaTree)
    ensures TreeSignable(t) <==> OwnSignable(t.schema) && ChildrenSignable(t, 0)
  {
    if OwnSignable(t.schema) && ChildrenSignable(t, 0) {
      forall n, e | InTree(t, n) && Gate(n, e) ensures Signable(n, e) {
        if n != t.schema {
          var j :| 0 <= j < |t.children| && InTree(t.children[j], n);
          assert TreeSignable(t.children[j]);
        }
      }
    }
    if TreeSignable(t) {
      forall j | 0 <= j < |t.children| ensures TreeSignable(t.children[j]) {
        forall n, e | InTree(t.children[j], n) && Gate(n, e) ensures Signable(n, e) {
          assert InTree(t, n);
        }
      }
    }
  }

  /**
   * `router` as built: `_create_router` registers the resource's own
   * endpoints, then builds every child's router in turn, and the first
   * parameter list `forge.sign` refuses aborts the whole construction. It
   * succeeds exactly when no gated endpoint anywhere in the tree repeats a
   * path-id name, and then yields `Routes(t)`.
   */
  function BuildRouter(t: SchemaTree): (r: Result<seq<Route>, BuildError>)
    ensures r.Success? <==> TreeSignable(t)
    ensures r.Success? ==> r.value == Routes(t)
    decreases t, |t.children| + 1
  {
    SignEachRegistered(t.schema);
    TreeSignableSplit(t);
    match SignEach(t.schema, Registered(t.schema))
    case Failure(err) => Failure(err)
    case Success(_) =>
      match BuildChildren(t, 0)
      case Failure(err) => Failure(err)
      case Success(_) => Success(Routes(t))
  }

  /** Building the routers of the children from index `i` on, in order. */
  function BuildChildren(t: SchemaTree, i: nat): (r: Result<(), BuildError>)
    requires i <= |t.children|
    ensures r.Success? <==> ChildrenSignable(t, i)
    decreases t, |t.children| - i
  {
    if i == |t.children| then Success(())
    else
      ChildrenSignableStep(t, i);
      match BuildRouter(t.children[i])
      case Failure(err) => Failure(err)
      case Success(_) => BuildChildren(t, i + 1)
  }

  /**
   * Id names can collide: `lines` (model `OrderItem`) under `orders`
   * (`Order`) under `items` (`Item`). Removing `order` from `orderitem`
   * leaves `item_id`, which is also the root's id name, so the item routes of
   * `lines` repeat a parameter name and building the router fails.
   */
  lemma CollidingIdNames(base: Schema)
    ensures var items := base.(name := "items", model := Model("Item", [], false, None), parent := None);
            var orders := base.(name := "orders", model := Model("Order", [], false, None), parent := Some(items));
            var lines := base.(name := "lines", model := Model("OrderItem", [], false, None), parent := Some(orders),
                               get := Declared("LineOut"));
            && IdField(items) == "item_id" && IdField(lines) == "item_id"
            && !Signable(lines, GetEndpoint)
            && BuildRouter(SchemaTree(items, [SchemaTree(orders, [SchemaTree(lines, [])])])).Failure?
  {
    var items := base.(name := "items", model := Model("Item", [], false, None), parent := None);
    var orders := base.(name := "orders", model := Model("Order", [], false, None), parent := Some(items));
    var lines := base.(name := "lines", model := Model("OrderItem", [], false, None), parent := Some(orders),
                       get := Declared("LineOut"));
    ExampleIdFields(items, orders, lines);
    RepeatedOwnId(lines, items);
    var lt := SchemaTree(lines, []);
    var ot := SchemaTree(orders, [lt]);
    var it := SchemaTree(items, [ot]);
    assert InTree(ot, lines) by { assert InTree(ot.children[0], lines); }
    assert InTree(it, lines) by { assert InTree(it.children[0], lines); }
    assert Gate(lines, GetEndpoint);
  }

  lemma ExampleIdFields(items: Schema, orders: Schema, lines: Schema)
    requires items.model.name == "Item" && items.parent.None?
    requires orders.model.name == "Order" && orders.parent == Some(items)
    requires lines.model.name == "OrderItem" && lines.parent == Some(orders)
    ensures IdField(items) == "item_id" && IdField(lines) == "item_id"
  {
    ItemIdField(items);
    OrderItemIdField(lines);
  }

  lemma ItemIdField(s: Schema)
    requires s.model.name == "Item" && s.parent.None?
    ensures IdField(s) == "item_id"
  {
    ItemLower();
    RootIdField(s, "item");
  }

  lemma OrderItemIdField(s: Schema)
    requires s.model.name == "OrderItem" && s.parent.Some? && s.parent.value.model.name == "Order"
    ensures IdField(s) == "item_id"
  {
    assert IdField(s) == Lower("Item") + "_id" by {
      OrderItemWords();
      ConcatenatedIdField(s, "Order", "Item");
    }
    ItemLower();
  }

  lemma OrderItemWords()
    ensures "OrderItem" == "Order" + "Item"
  {
  }

  lemma ItemLower()
    ensures Lower("Item") == "item" && Lower("Item") + "_id" == "item_id"
  {
    LowerWord("Item", "item");
  }

  /** A model named after its parent's model, plus a suffix, takes the lower-cased suffix as its id stem. */
  lemma ConcatenatedIdField(s: Schema, a: string, b: string)
    requires s.parent.Some? && s.parent.value.model.name == a && s.model.name == a + b
    ensures IdField(s) == Lower(b) + "_id"
  {
    LowerAppend(a, b);
    NestedIdField(s, Lower(a) + Lower(b), Lower(a), Lower(b));
  }

  /** A root's id name is its lower-cased model name followed by `_id`. */
  lemma RootIdField(s: Schema, name: string)
    requires s.parent.None? && Lower(s.model.name) == name
    ensures IdField(s) == name + "_id"
  {
  }

  /** A nested resource's id name drops its parent's singular name from the front of its own. */
  lemma NestedIdField(s: Schema, name: string, parentName: string, stem: string)
    requires s.parent.Some? && Lower(s.model.name) == name && Lower(s.parent.value.model.name) == parentName
    requires name == parentName + stem
    ensures IdField(s) == stem + "_id"
  {
    assert name[|parentName|..] == stem;
  }

  /** A resource two levels below an ancestor with its own id name repeats that name on its item routes. */
  lemma RepeatedOwnId(n: Schema, root: Schema)
    requires n.parent.Some? && n.parent.value.parent == Some(root) && root.parent.None?
    requires IdField(root) == IdField(n)
    ensures !Signable(n, GetEndpoint)
  {
    var p := n.parent.value;
    assert Depth(root) == 0;
    assert Depth(p) == 1;
    assert Depth(n) == 2;
    assert Ancestor(n, 2) == Ancestor(p, 1) == Ancestor(root, 0) == root;
    var ids := PathSignatureId(n, true);
    assert ids[0] == IdParam(root) && ids[2] == IdParam(n);
    assert ids[0].name == ids[2].name;
  }

  /** `Lower` of a literal word, checked letter by letter. */
  lemma LowerWord(w: string, l: string)
    requires |w| == |l|
    requires forall i :: 0 <= i < |w| ==> LowerChar(w[i]) == l[i]
    ensures Lower(w) == l
  {
    assert forall i :: 0 <= i < |w| ==> Lower(w)[i] == LowerChar(w[i]);
  }

  // ---------------------------------------------------------------------------
  // Every route belongs to a node and is one of its gated endpoints
  // ---------------------------------------------------------------------------

  /** What every route of a router is: a gated endpoint of one of the tree's resources, signed as that endpoint. */
  ghost predicate RouteOfTree(t: SchemaTree, r: Route)
  {
    && InTree(t, r.resource)
    && Gate(r.resource, r.endpoint)
    && r.params == Signature(r.resource, r.endpoint)
    && r.verb == MethodOf(r.endpoint)
    && r.statusCode == (if r.endpoint.DeleteEndpoint? then Some(204) else None)
  }

  lemma {:induction false} RouteShapes(t: SchemaTree)
    ensures forall r :: r in Routes(t) ==> RouteOfTree(t, r)
    decreases t, |t.children| + 1
  {
    var own := OwnRoutes(t.schema);
    var kids := ChildRoutes(t, 0);
    var mounted := Mount(RouterPrefix(t.schema), kids);
    RegisteredEndpoints(t.schema);
    forall r | r in own ensures RouteOfTree(t, r) {
      var i :| 0 <= i < |own| && own[i] == r;
      assert Registered(t.schema)[i] in Registered(t.schema);
    }
    ChildShapes(t, 0);
    forall r | r in mounted ensures RouteOfTree(t, r) {
      var i :| 0 <= i < |mounted| && mounted[i] == r;
      assert kids[i] in kids;
      var j :| 0 <= j < |t.children| && RouteOfTree(t.children[j], kids[i]);
      assert InTree(t.children[j], r.resource);
    }
  }

  lemma {:induction false} ChildShapes(t: SchemaTree, i: nat)
    requires i <= |t.children|
    ensures forall r :: r in ChildRoutes(t, i) ==>
              exists j :: i <= j < |t.children| && RouteOfTree(t.children[j], r)
    decreases t, |t.children| - i
  {
    if i < |t.children| {
      RouteShapes(t.children[i]);
      ChildShapes(t, i + 1);
    }
  }

  /** Every gated endpoint of every resource in the tree is registered. */
  lemma {:induction false} RouteFor(t: SchemaTree, n: Schema, e: Endpoint) returns (r: Route)
    requires InTree(t, n)
    requires Gate(n, e)
    ensures r in Routes(t) && r.resource == n && r.endpoint == e
    decreases t, |t.children| + 1
  {
    if t.schema == n {
      r := OwnRouteFor(n, e);
      assert Routes(t) == OwnRoutes(n) + Mount(RouterPrefix(n), ChildRoutes(t, 0));
    } else {
      var j :| 0 <= j < |t.children| && InTree(t.children[j], n);
      var inner := ChildRouteFor(t, 0, j, n, e);
      r := MountedRoute(t, inner);
    }
  }

  /** A gated endpoint has a route among the router's own routes. */
  lemma OwnRouteFor(n: Schema, e: Endpoint) returns (r: Route)
    requires Gate(n, e)
    ensures r in OwnRoutes(n) && r.resource == n && r.endpoint == e
  {
    RegisteredEndpoints(n);
    var i :| 0 <= i < |Registered(n)| && Registered(n)[i] == e;
    r := OwnRoutes(n)[i];
  }

  /** A route of the children is, with the router's prefix put before it, a route of the router. */
  lemma MountedRoute(t: SchemaTree, inner: Route) returns (r: Route)
    requires inner in ChildRoutes(t, 0)
    ensures r in Routes(t) && r.resource == inner.resource && r.endpoint == inner.endpoint
  {
    var kids := ChildRoutes(t, 0);
    var mounted := Mount(RouterPrefix(t.schema), kids);
    var k :| 0 <= k < |kids| && kids[k] == inner;
    r := mounted[k];
    assert Routes(t) == OwnRoutes(t.schema) + mounted;
    assert r == Routes(t)[|OwnRoutes(t.schema)| + k];
  }

  lemma {:induction false} ChildRouteFor(t: SchemaTree, i: nat, j: nat, n: Schema, e: Endpoint) returns (r: Route)
    requires i <= j < |t.children|
    requires InTree(t.children[j], n)
    requires Gate(n, e)
    ensures r in ChildRoutes(t, i) && r.resource == n && r.endpoint == e
    decreases t, |t.children| - i
  {
    var here, later := Routes(t.children[i]), ChildRoutes(t, i + 1);
    assert ChildRoutes(t, i) == here + later;
    if i == j {
      r := RouteFor(t.children[j], n, e);
      InLeft(r, here, later);
    } else {
      r := ChildRouteFor(t, i + 1, j, n, e);
      InRight(r, here, later);
    }
  }

  lemma InLeft<T>(x: T, a: seq<T>, b: seq<T>)
    requires x in a
    ensures x in a + b
  {
  }

  lemma InRight<T>(x: T, a: seq<T>, b: seq<T>)
    requires x in b
    ensures x in a + b
  {
  }

  // ---------------------------------------------------------------------------
  // Paths
  // ---------------------------------------------------------------------------

  /** The path of the router a resource is mounted into: everything before its own prefix. */
  function Above(s: Schema): string
  {
    if s.parent.Some? then FullPrefix(s.parent.value) else ""
  }

  lemma Concat3<T>(a: seq<T>, b: seq<T>, c: seq<T>)
    ensures a + (b + c) == a + b + c
  {
  }

  lemma FullPrefixSplit(s: Schema)
    ensures FullPrefix(s) == Above(s) + RouterPrefix(s)
  {
    if s.parent.Some? {
      var p := s.parent.value;
      Assoc4(FullPrefix(p), IdFieldPlaceholder(p), "/", s.name);
    } else {
      assert "" + ("" + "/" + s.name) == "" + "/" + s.name;
    }
  }

  lemma Assoc4<T>(a: seq<T>, b: seq<T>, c: seq<T>, d: seq<T>)
    ensures a + b + c + d == a + (b + c + d)
  {
  }

  lemma {:induction false} RoutePathsFrom(t: SchemaTree)
    requires TreeWellFormed(t)
    ensures forall r :: r in Routes(t) ==>
              Above(t.schema) + r.path == FullPrefix(r.resource) + LocalPath(r.resource, r.endpoint)
    decreases t, |t.children| + 2
  {
    var s := t.schema;
    var own, mounted := OwnRoutes(s), Mount(RouterPrefix(s), ChildRoutes(t, 0));
    assert Routes(t) == own + mounted;
    OwnRoutePaths(s);
    MountedRoutePaths(t);
  }

  lemma OwnRoutePaths(s: Schema)
    ensures forall r :: r in OwnRoutes(s) ==>
              Above(s) + r.path == FullPrefix(r.resource) + LocalPath(r.resource, r.endpoint)
  {
    var own := OwnRoutes(s);
    FullPrefixSplit(s);
    forall r | r in own
      ensures Above(s) + r.path == FullPrefix(r.resource) + LocalPath(r.resource, r.endpoint)
    {
      var i :| 0 <= i < |own| && own[i] == r;
      var e := Registered(s)[i];
      assert r.path == RouterPrefix(s) + LocalPath(s, e);
      Concat3(Above(s), RouterPrefix(s), LocalPath(s, e));
    }
  }

  lemma {:induction false} MountedRoutePaths(t: SchemaTree)
    requires TreeWellFormed(t)
    ensures forall r :: r in Mount(RouterPrefix(t.schema), ChildRoutes(t, 0)) ==>
              Above(t.schema) + r.path == FullPrefix(r.resource) + LocalPath(r.resource, r.endpoint)
    decreases t, |t.children| + 1
  {
    var s := t.schema;
    var kids := ChildRoutes(t, 0);
    var mounted := Mount(RouterPrefix(s), kids);
    FullPrefixSplit(s);
    ChildRoutePaths(t, 0);
    forall r | r in mounted
      ensures Above(s) + r.path == FullPrefix(r.resource) + LocalPath(r.resource, r.endpoint)
    {
      var i :| 0 <= i < |mounted| && mounted[i] == r;
      assert kids[i] in kids;
      assert r.path == RouterPrefix(s) + kids[i].path;
      Concat3(Above(s), RouterPrefix(s), kids[i].path);
    }
  }

  lemma {:induction false} ChildRoutePaths(t: SchemaTree, i: nat)
    requires TreeWellFormed(t)
    requires i <= |t.children|
    ensures forall r :: r in ChildRoutes(t, i) ==>
              FullPrefix(t.schema) + r.path == FullPrefix(r.resource) + LocalPath(r.resource, r.endpoint)
    decreases t, |t.children| - i
  {
    if i < |t.children| {
      var c := t.children[i];
      RoutePathsFrom(c);
      assert Above(c.schema) == FullPrefix(t.schema);
      ChildRoutePaths(t, i + 1);
    }
  }

  /**
   * Mounting composes prefixes: in a well-formed tree, every route's path is
   * its resource's full prefix (every ancestor's name and id placeholder, root
   * first, then its own name) followed by the endpoint's local path.
   */
  lemma RoutePaths(t: SchemaTree)
    requires TreeWellFormed(t)
    requires t.schema.parent.None?
    ensures forall r :: r in Routes(t) ==> r.path == FullPrefix(r.resource) + LocalPath(r.resource, r.endpoint)
  {
    RoutePathsFrom(t);
    forall r | r in Routes(t) ensures r.path == FullPrefix(r.resource) + LocalPath(r.resource, r.endpoint) {
      assert "" + r.path == r.path;
    }
  }

  // ---------------------------------------------------------------------------
  // Path placeholders agree with the path parameters
  // ---------------------------------------------------------------------------

  lemma NamesAppend(a: seq<Param>, b: seq<Param>)
    ensures Names(a + b) == Names(a) + Names(b)
  {
    var l, r := Names(a + b), Names(a) + Names(b);
    forall i | 0 <= i < |a + b| ensures l[i] == r[i] {
      if i < |a| {
        assert (a + b)[i] == a[i];
      } else {
        assert (a + b)[i] == b[i - |a|];
      }
    }
  }

  /** The placeholders of a resource's full prefix are the names of its parents' path ids, root first. */
  lemma {:induction false} PrefixPlaceholders(s: Schema, tail: string)
    requires ChainWellFormed(s)
    ensures Placeholders(FullPrefix(s) + tail) == Names(PathSignatureId(s, false)) + Placeholders(tail)
  {
    if s.parent.None? {
      assert FullPrefix(s) == "/" + s.name;
      PlaceholdersSkipPlain("/" + s.name, tail);
      assert Names(PathSignatureId(s, false)) == [];
    } else {
      var p := s.parent.value;
      var after := "/" + ("{" + IdField(p) + "}" + ("/" + s.name + tail));
      PrefixStep(s, tail);
      PrefixPlaceholders(p, after);
      IdFieldBraceFree(p);
      LevelPlaceholders(IdField(p), s.name, tail);
      Concat3(Names(PathSignatureId(p, false)), [IdField(p)], Placeholders(tail));
    }
  }

  /** How a child's prefix and path ids extend its parent's. */
  lemma PrefixStep(s: Schema, tail: string)
    requires s.parent.Some?
    ensures FullPrefix(s) + tail ==
              FullPrefix(s.parent.value) + ("/" + ("{" + IdField(s.parent.value) + "}" + ("/" + s.name + tail)))
    ensures Names(PathSignatureId(s, false)) ==
              Names(PathSignatureId(s.parent.value, false)) + [IdField(s.parent.value)]
  {
    var p := s.parent.value;
    assert FullPrefix(s) == FullPrefix(p) + IdFieldPlaceholder(p) + "/" + s.name;
    LevelAssoc(FullPrefix(p), IdField(p), s.name, tail);
    IdsStep(s);
  }

  lemma IdsStep(s: Schema)
    requires s.parent.Some?
    ensures Names(PathSignatureId(s, false)) ==
              Names(PathSignatureId(s.parent.value, false)) + [IdField(s.parent.value)]
  {
    var p := s.parent.value;
    assert PathSignatureId(s, false) == PathSignatureId(p, false) + [IdParam(p)];
    NamesAppend(PathSignatureId(p, false), [IdParam(p)]);
  }

  /** The placeholders of an endpoint's local path. */
  lemma LocalPlaceholders(s: Schema, e: Endpoint)
    requires BraceFree(s.model.name)
    ensures Placeholders(LocalPath(s, e)) ==
              (if IsItem(e) then [IdField(s)] else [])
                + (if e.AggregateEndpoint? then ["aggregation_function", "field"] else [])
  {
    if IsItem(e) {
      IdFieldBraceFree(s);
      PlaceholdersSkipPlain("/", "{" + IdField(s) + "}" + "");
      PlaceholdersToken(IdField(s), "");
      assert IdFieldPlaceholder(s) == "/" + ("{" + IdField(s) + "}" + "");
    } else if e.AggregateEndpoint? {
      AggregatePlaceholders();
    }
  }

  lemma AggregatePlaceholders()
    ensures Placeholders(AggregatePath) == ["aggregation_function", "field"]
  {
    assert BraceFree("/aggregate/") && BraceFree("aggregation_function") && BraceFree("field");
    TwoTokens("/aggregate/", "aggregation_function", "field");
  }

  /** `<p>{x}/{y}` with brace-free pieces holds the placeholders `x` and `y`. */
  lemma TwoTokens(p: string, x: string, y: string)
    requires BraceFree(p) && BraceFree(x) && BraceFree(y)
    ensures Placeholders(p + ("{" + x + "}" + ("/" + ("{" + y + "}" + "")))) == [x, y]
  {
    var tail := "/" + ("{" + y + "}" + "");
    PlaceholdersSkipPlain("/", "{" + y + "}" + "");
    PlaceholdersToken(y, "");
    PlaceholdersToken(x, tail);
    PlaceholdersSkipPlain(p, "{" + x + "}" + tail);
  }

  /** The names of the path parameters in an endpoint's signature. */
  lemma SignaturePathNames(s: Schema, e: Endpoint)
    ensures PathNames(Signature(s, e)) ==
              Names(PathSignatureId(s, false))
                + (if IsItem(e) then [IdField(s)] else [])
                + (if e.AggregateEndpoint? then ["aggregation_function", "field"] else [])
  {
    var ids := PathSignatureId(s, IsItem(e));
    IdPathNames(s, IsItem(e));
    TailPathNames(s, e);
    PathNamesAppend(ids, AfterIds(s, e));
  }

  /** After the ids only the aggregate endpoint binds path parameters: the function and the field. */
  lemma TailPathNames(s: Schema, e: Endpoint)
    ensures PathNames(AfterIds(s, e)) == if e.AggregateEndpoint? then ["aggregation_function", "field"] else []
  {
    match e
    case ListEndpoint => ListTailPathNames(s);
    case AggregateEndpoint => AggregateTailPathNames(s);
    case GetEndpoint => PathNamesNone(SecuritySignature(s, Get));
    case DeleteEndpoint => PathNamesNone(SecuritySignature(s, Delete));
    case _ => WriteTailPathNames(s, e);
  }

  lemma ListTailPathNames(s: Schema)
    ensures PathNames(AfterIds(s, ListEndpoint)) == []
  {
    var access := SecuritySignature(s, GetList);
    PathNamesNone(access);
    PathNamesNone(DependsSearch(s));
    PathNamesAppend(access, DependsSearch(s));
  }

  lemma AggregateTailPathNames(s: Schema)
    ensures PathNames(AfterIds(s, AggregateEndpoint)) == ["aggregation_function", "field"]
  {
    var a, g, d := SecuritySignature(s, GetAggregate), AggregateParams(s), DependsSearch(s);
    assert AfterIds(s, AggregateEndpoint) == a + g + d;
    PathNamesNone(a);
    PathNamesNone(d);
    AggregateParamNames(s);
    ThreePathNames(a, g, d);
  }

  lemma WriteTailPathNames(s: Schema, e: Endpoint)
    requires e.PostEndpoint? || e.PatchEndpoint? || e.PutEndpoint?
    ensures PathNames(AfterIds(s, e)) == []
  {
    var access := SecuritySignature(s, ScopeMethod(e));
    PathNamesNone(access);
    PathNamesNone([DataParamOf(s, e)]);
    PathNamesAppend([DataParamOf(s, e)], access);
  }

  lemma ThreePathNames(a: seq<Param>, b: seq<Param>, c: seq<Param>)
    ensures PathNames(a + b + c) == PathNames(a) + PathNames(b) + PathNames(c)
  {
    PathNamesAppend(a + b, c);
    PathNamesAppend(a, b);
  }

  lemma IdPathNames(s: Schema, includeSelf: bool)
    ensures PathNames(PathSignatureId(s, includeSelf)) ==
              Names(PathSignatureId(s, false)) + (if includeSelf then [IdField(s)] else [])
  {
    var up := PathSignatureId(s, false);
    var ids := PathSignatureId(s, includeSelf);
    PathNamesOfIds(ids);
    if includeSelf {
      OwnIds(s);
      NamesAppend(up, [IdParam(s)]);
    } else {
      assert Names(up) + [] == Names(up);
    }
  }

  lemma AggregateParamNames(s: Schema)
    ensures PathNames(AggregateParams(s)) == ["aggregation_function", "field"]
  {
    var ag := AggregateParams(s);
    PathNamesNone(ag[2..]);
    assert ag == ag[..2] + ag[2..];
    PathNamesAppend(ag[..2], ag[2..]);
    assert PathNames(ag[..2]) == ["aggregation_function", "field"];
  }

  /**
   * Every placeholder of an endpoint's full path is bound by a path parameter
   * of its signature and the other way round, in the same order.
   */
  lemma EndpointPlaceholders(s: Schema, e: Endpoint)
    requires ChainWellFormed(s)
    ensures Placeholders(FullPrefix(s) + LocalPath(s, e)) == PathNames(Signature(s, e))
  {
    PrefixPlaceholders(s, LocalPath(s, e));
    LocalPlaceholders(s, e);
    SignaturePathNames(s, e);
    Concat3(Names(PathSignatureId(s, false)), if IsItem(e) then [IdField(s)] else [],
            if e.AggregateEndpoint? then ["aggregation_function", "field"] else []);
  }

  lemma {:induction false} InTreeWellFormed(t: SchemaTree, n: Schema)
    requires TreeWellFormed(t)
    requires InTree(t, n)
    ensures ChainWellFormed(n)
    decreases t
  {
    if t.schema != n {
      var j :| 0 <= j < |t.children| && InTree(t.children[j], n);
      InTreeWellFormed(t.children[j], n);
    }
  }

  /**
   * In a well-formed tree every route's path template names exactly the
   * path parameters of the endpoint it serves, in order.
   */
  lemma RoutePlaceholders(t: SchemaTree)
    requires TreeWellFormed(t)
    requires t.schema.parent.None?
    ensures forall r :: r in Routes(t) ==> Placeholders(r.path) == PathNames(r.params)
  {
    RoutePaths(t);
    RouteShapes(t);
    forall r | r in Routes(t) ensures Placeholders(r.path) == PathNames(r.params) {
      InTreeWellFormed(t, r.resource);
      EndpointPlaceholders(r.resource, r.endpoint);
    }
  }
}
