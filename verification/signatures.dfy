/**
 * The parameter lists of the seven endpoints (`_create_endpoint_*`), the
 * path-id parameters they start with (`_path_signature_id`), and how an item
 * endpoint reads its ids back from the bound arguments (`_get_ids`,
 * `_object_get`).
 */
module Signatures {
  import opened Results
  import opened Resources
  import opened Params
  import opened Paths
  import opened Security
  import Search
  import ModelFields
  import Lookups

  /** The seven generated endpoints. */
  datatype Endpoint =
    | ListEndpoint
    | AggregateEndpoint
    | PostEndpoint
    | GetEndpoint
    | PatchEndpoint
    | PutEndpoint
    | DeleteEndpoint

  /** Item endpoints address one record and take its id from the path. */
  predicate IsItem(e: Endpoint)
  {
    e.GetEndpoint? || e.PatchEndpoint? || e.PutEndpoint? || e.DeleteEndpoint?
  }

  /** The key each endpoint looks its security scopes up with. */
  function ScopeMethod(e: Endpoint): Method
  {
    match e
    case ListEndpoint => GetList
    case AggregateEndpoint => GetAggregate
    case PostEndpoint => Post
    case GetEndpoint => Get
    case PatchEndpoint => Patch
    case PutEndpoint => Put
    case DeleteEndpoint => Delete
  }

  /** The path-id parameter of one level: named by its `id_field`, exactly `max_length` long. */
  function IdParam(s: Schema): Param
  {
    Param(IdField(s), PathId(s.model.idMaxLength))
  }

  /**
   * `_path_signature_id`: one id parameter per ancestor, root first, then
   * the resource's own id when `includeSelf` is set.
   */
  function PathSignatureId(s: Schema, includeSelf: bool): (r: seq<Param>)
    ensures |r| == Depth(s) + (if includeSelf then 1 else 0)
    ensures forall i :: 0 <= i < |r| ==> r[i] == IdParam(Ancestor(s, Depth(s) - i))
    decreases s, 1
  {
    var ids := AncestorIds(s);
    if includeSelf then AppendOwnId(s, ids); ids + [IdParam(s)] else ids
  }

  /** The ids of the ancestors alone, root first, numbered from `s`. */
  function AncestorIds(s: Schema): (r: seq<Param>)
    ensures |r| == Depth(s)
    ensures forall i :: 0 <= i < |r| ==> r[i] == IdParam(Ancestor(s, Depth(s) - i))
    decreases s, 0
  {
    if s.parent.None? then []
    else
      var ids := PathSignatureId(s.parent.value, true);
      ParentIds(s, ids);
      ids
  }

  /** The resource's own id, after its ancestors' ids, is numbered by its own depth. */
  lemma AppendOwnId(s: Schema, ids: seq<Param>)
    requires |ids| == Depth(s)
    requires forall i :: 0 <= i < |ids| ==> ids[i] == IdParam(Ancestor(s, Depth(s) - i))
    ensures forall i :: 0 <= i < |ids| + 1 ==> (ids + [IdParam(s)])[i] == IdParam(Ancestor(s, Depth(s) - i))
  {
    assert Ancestor(s, 0) == s;
  }

  /** An item endpoint's ids are the collection's ids followed by the record's own. */
  lemma OwnIds(s: Schema)
    ensures PathSignatureId(s, true) == PathSignatureId(s, false) + [IdParam(s)]
  {
  }

  /** The parent's ids, numbered from the parent, are the child's ancestors' ids. */
  lemma ParentIds(s: Schema, ids: seq<Param>)
    requires s.parent.Some?
    requires |ids| == Depth(s.parent.value) + 1
    requires forall i :: 0 <= i < |ids| ==> ids[i] == IdParam(Ancestor(s.parent.value, Depth(s.parent.value) - i))
    ensures forall i :: 0 <= i < |ids| ==> ids[i] == IdParam(Ancestor(s, Depth(s) - i))
  {
    forall i | 0 <= i < |ids|
      ensures ids[i] == IdParam(Ancestor(s, Depth(s) - i))
    {
      AncestorOfParent(s, Depth(s.parent.value) - i);
    }
  }

  /**
   * The values bound to the parameters `ps`, in order; `None` (a `KeyError`
   * in the source) as soon as one of them is not bound.
   */
  function ArgValues(kwargs: map<string, string>, ps: seq<Param>): (r: Option<seq<string>>)
    ensures r.Some? <==> forall i :: 0 <= i < |ps| ==> ps[i].name in kwargs
    ensures r.Some? ==> |r.value| == |ps| && forall i :: 0 <= i < |ps| ==> r.value[i] == kwargs[ps[i].name]
  {
    if |ps| == 0 then Some([])
    else if ps[0].name !in kwargs then None
    else
      match ArgValues(kwargs, ps[1..])
      case None => None
      case Some(rest) => Some([kwargs[ps[0].name]] + rest)
  }

  /** `_get_ids`: the bound path ids, root first. */
  function GetIds(s: Schema, kwargs: map<string, string>, includeSelf: bool): Option<seq<string>>
  {
    ArgValues(kwargs, PathSignatureId(s, includeSelf))
  }

  /** What `_object_get` asks the store for: a record id under a chain of parent ids. */
  datatype Lookup = Lookup(id: string, parentIds: seq<string>)

  /**
   * `_object_get`: the last id is the record's own id and the ids before it
   * are the parent ids, the same ones a collection endpoint of this resource
   * reads.
   */
  function ObjectGet(s: Schema, kwargs: map<string, string>): (r: Option<Lookup>)
    ensures r.Some? <==> GetIds(s, kwargs, true).Some?
    ensures r.Some? ==> IdField(s) in kwargs && r.value.id == kwargs[IdField(s)]
    ensures r.Some? ==> GetIds(s, kwargs, false) == Some(r.value.parentIds)
    ensures r.Some? ==> |r.value.parentIds| == Depth(s)
  {
    match GetIds(s, kwargs, true)
    case None => None
    case Some(ids) =>
      OwnIds(s);
      ArgValuesSnoc(kwargs, PathSignatureId(s, false), IdParam(s));
      Some(Lookup(ids[|ids| - 1], ids[..|ids| - 1]))
  }

  /** Binding `ps + [p]` binds `ps` to all values but the last and `p` to the last. */
  lemma ArgValuesSnoc(kwargs: map<string, string>, ps: seq<Param>, p: Param)
    requires ArgValues(kwargs, ps + [p]).Some?
    ensures p.name in kwargs
    ensures var vs := ArgValues(kwargs, ps + [p]).value;
            ArgValues(kwargs, ps) == Some(vs[..|vs| - 1]) && vs[|vs| - 1] == kwargs[p.name]
  {
    var qs := ps + [p];
    var vs := ArgValues(kwargs, qs).value;
    assert qs[|qs| - 1] == p;
    assert forall i :: 0 <= i < |ps| ==> ps[i].name in kwargs by {
      forall i | 0 <= i < |ps| ensures ps[i].name in kwargs { assert qs[i] == ps[i]; }
    }
    assert forall i :: 0 <= i < |ps| ==> ArgValues(kwargs, ps).value[i] == vs[i] by {
      forall i | 0 <= i < |ps| ensures ArgValues(kwargs, ps).value[i] == vs[i] { assert qs[i] == ps[i]; }
    }
    assert ArgValues(kwargs, ps).value == vs[..|vs| - 1];
  }

  /** `_depends_search`: the compiled search filter, then pagination ordered by `model_fields`. */
  function DependsSearch(s: Schema): seq<Param>
  {
    [Param("search", SearchParam(Search.SearchFilterFields(s))),
     Param("pagination", PaginationParam(ModelFields.OrderChoices(s)))]
  }

  /** The request body of a create, partial update or full update. */
  function DataParamOf(s: Schema, e: Endpoint): Param
  {
    match e
    case PostEndpoint => Param("data", DataParam(s.create, if s.createMulti then ListOfDeclared else AsDeclared))
    case PatchEndpoint => Param("data", DataParam(s.update, AllOptional))
    case _ => Param("data", DataParam(s.update, AsDeclared))
  }

  /** The aggregate-only parameters; `group_by` only when a group-by enum is configured. */
  function AggregateParams(s: Schema): seq<Param>
  {
    [Param("aggregation_function", AggregationFunctionParam),
     Param("field", AggregateFieldParam(s.aggregateFields))]
      + (if s.aggregateGroupBy.Some? then [Param("group_by", GroupByParam(s.aggregateGroupBy.value))] else [])
  }

  /**
   * The parameter list `_create_endpoint_*` signs each endpoint with: the
   * path ids, then the rest. `forge.sign` accepts it exactly when the path
   * ids have distinct names.
   */
  function Signature(s: Schema, e: Endpoint): (r: seq<Param>)
    ensures Sign(r).Success? <==> DistinctNames(PathSignatureId(s, IsItem(e)))
  {
    SignsIffDistinctIds(s, e);
    PathSignatureId(s, IsItem(e)) + AfterIds(s, e)
  }

  /** The parameters that follow the path ids, per endpoint. */
  function AfterIds(s: Schema, e: Endpoint): seq<Param>
  {
    var access := SecuritySignature(s, ScopeMethod(e));
    match e
    case ListEndpoint => access + DependsSearch(s)
    case AggregateEndpoint => access + AggregateParams(s) + DependsSearch(s)
    case PostEndpoint => [DataParamOf(s, e)] + access
    case GetEndpoint => access
    case PatchEndpoint => [DataParamOf(s, e)] + access
    case PutEndpoint => [DataParamOf(s, e)] + access
    case DeleteEndpoint => access
  }

  // ---------------------------------------------------------------------------
  // Signing: repeated parameter names
  // ---------------------------------------------------------------------------

  /** Why building a router fails: a parameter list repeats a name. */
  datatype BuildError = DuplicateParameter(name: string)

  /** No two parameters of `ps` share a name. */
  predicate DistinctNames(ps: seq<Param>)
  {
    forall i, j :: 0 <= i < j < |ps| ==> ps[i].name != ps[j].name
  }

  /**
   * `forge.sign`: a parameter list is accepted as it is unless two of its
   * parameters share a name; the first name that is repeated is reported.
   */
  function Sign(ps: seq<Param>): (r: Result<seq<Param>, BuildError>)
    ensures r.Success? <==> DistinctNames(ps)
    ensures r.Success? ==> r.value == ps
    ensures r.Failure? ==> exists i, j :: 0 <= i < j < |ps| && ps[i].name == r.error.name && ps[j].name == r.error.name
  {
    if |ps| == 0 then Success(ps)
    else if exists j :: 1 <= j < |ps| && ps[j].name == ps[0].name then Failure(DuplicateParameter(ps[0].name))
    else
      match Sign(ps[1..])
      case Failure(err) =>
        assert exists i, j :: 1 <= i < j < |ps| && ps[i].name == err.name && ps[j].name == err.name by {
          var i, j :| 0 <= i < j < |ps[1..]| && ps[1..][i].name == err.name && ps[1..][j].name == err.name;
          assert ps[i + 1] == ps[1..][i] && ps[j + 1] == ps[1..][j];
        }
        Failure(err)
      case Success(_) =>
        assert DistinctNames(ps) by {
          forall i, j | 0 <= i < j < |ps| ensures ps[i].name != ps[j].name {
            if i > 0 {
              assert ps[i] == ps[1..][i - 1] && ps[j] == ps[1..][j - 1];
            }
          }
        }
        Success(ps)
  }

  /** A parameter name that ends in `_id`, as every path-id name does. */
  predicate EndsInId(n: string)
  {
    |n| >= 3 && n[|n| - 3..] == "_id"
  }

  /** The names the parameters after the path ids can have. */
  const FixedNames: set<string> := {"access", "data", "aggregation_function", "field", "group_by", "search", "pagination"}

  lemma FixedNamesNotIds()
    ensures forall n :: n in FixedNames ==> !EndsInId(n)
  {
    assert "access"[3..] != "_id";
    assert "data"[1..] != "_id";
    assert "aggregation_function"[17..] != "_id";
    assert "field"[2..] != "_id";
    assert "group_by"[5..] != "_id";
    assert "search"[3..] != "_id";
    assert "pagination"[7..] != "_id";
  }

  /** The parameters after the path ids have distinct fixed names. */
  lemma AfterIdsNames(s: Schema, e: Endpoint)
    ensures forall p :: p in AfterIds(s, e) ==> p.name in FixedNames
    ensures DistinctNames(AfterIds(s, e))
  {
    var acc := SecuritySignature(s, ScopeMethod(e));
    AccessNames(s, ScopeMethod(e));
    match e {
      case ListEndpoint => SearchNames(s); DistinctAppend(acc, DependsSearch(s));
      case AggregateEndpoint => AggregateAfterIdsNames(s);
      case GetEndpoint =>
      case DeleteEndpoint =>
      case _ => DistinctAppend([DataParamOf(s, e)], acc);
    }
  }

  lemma AccessNames(s: Schema, m: Method)
    ensures forall p :: p in SecuritySignature(s, m) ==> p.name == "access"
    ensures DistinctNames(SecuritySignature(s, m))
  {
  }

  lemma SearchNames(s: Schema)
    ensures forall p :: p in DependsSearch(s) ==> p.name in {"search", "pagination"}
    ensures DistinctNames(DependsSearch(s))
  {
  }

  lemma AggregateAfterIdsNames(s: Schema)
    ensures forall p :: p in AfterIds(s, AggregateEndpoint) ==> p.name in FixedNames
    ensures DistinctNames(AfterIds(s, AggregateEndpoint))
  {
    var acc, ag, ds := SecuritySignature(s, GetAggregate), AggregateParams(s), DependsSearch(s);
    AccessNames(s, GetAggregate);
    SearchNames(s);
    AggregateNamesDistinct(s);
    DistinctAppend(acc, ag);
    DistinctAppend(acc + ag, ds);
  }

  lemma AggregateNamesDistinct(s: Schema)
    ensures forall p :: p in AggregateParams(s) ==> p.name in {"aggregation_function", "field", "group_by"}
    ensures DistinctNames(AggregateParams(s))
  {
  }

  /** Path-id parameter names all end in `_id`. */
  lemma IdNamesEndInId(s: Schema, b: bool)
    ensures forall p :: p in PathSignatureId(s, b) ==> EndsInId(p.name)
  {
    var ids := PathSignatureId(s, b);
    forall i | 0 <= i < |ids| ensures EndsInId(ids[i].name) {
      IdParamEndsInId(Ancestor(s, Depth(s) - i));
    }
  }

  lemma IdParamEndsInId(s: Schema)
    ensures EndsInId(IdParam(s).name)
  {
    var n := IdField(s);
    assert IdParam(s).name == n;
  }

  /** Two lists are jointly free of repeats when each is and they share no name. */
  lemma DistinctAppend(a: seq<Param>, b: seq<Param>)
    requires forall p, q :: p in a && q in b ==> p.name != q.name
    ensures DistinctNames(a + b) <==> DistinctNames(a) && DistinctNames(b)
  {
    var c := a + b;
    if DistinctNames(a) && DistinctNames(b) {
      forall i, j | 0 <= i < j < |c| ensures c[i].name != c[j].name {
        if j < |a| {
          assert c[i] == a[i] && c[j] == a[j];
        } else if i >= |a| {
          assert c[i] == b[i - |a|] && c[j] == b[j - |a|];
        } else {
          assert c[i] in a && c[j] in b;
        }
      }
    }
    if DistinctNames(c) {
      forall i, j | 0 <= i < j < |b| ensures b[i].name != b[j].name {
        assert c[|a| + i] == b[i] && c[|a| + j] == b[j];
      }
      forall i, j | 0 <= i < j < |a| ensures a[i].name != a[j].name {
        assert c[i] == a[i] && c[j] == a[j];
      }
    }
  }

  /**
   * An endpoint's parameter list is signed exactly when its path ids have
   * distinct names: every id name ends in `_id`, and the names after the ids
   * (`access`, `data`, `search`, ...) are fixed, distinct and do not.
   */
  lemma SignsIffDistinctIds(s: Schema, e: Endpoint)
    ensures Sign(PathSignatureId(s, IsItem(e)) + AfterIds(s, e)).Success? <==> DistinctNames(PathSignatureId(s, IsItem(e)))
  {
    var ids, rest := PathSignatureId(s, IsItem(e)), AfterIds(s, e);
    AfterIdsNames(s, e);
    IdNamesEndInId(s, IsItem(e));
    FixedNamesNotIds();
    DistinctAppend(ids, rest);
  }

  /** The role of a parameter in a signature. */
  datatype Role = IdRole | AccessRole | DataRole | SearchRole | PaginationRole | FunctionRole | FieldRole | GroupByRole | FilterRole

  function RoleOf(p: Param): Role
  {
    match p.kind
    case PathId(_) => IdRole
    case AccessParam(_) => AccessRole
    case DataParam(_, _) => DataRole
    case SearchParam(_) => SearchRole
    case PaginationParam(_) => PaginationRole
    case AggregationFunctionParam => FunctionRole
    case AggregateFieldParam(_) => FieldRole
    case GroupByParam(_) => GroupByRole
    case FilterParam(_, _) => FilterRole
  }

  function Roles(ps: seq<Param>): (r: seq<Role>)
    ensures |r| == |ps|
    ensures forall i :: 0 <= i < |ps| ==> r[i] == RoleOf(ps[i])
  {
    if |ps| == 0 then [] else [RoleOf(ps[0])] + Roles(ps[1..])
  }

  function Repeat(r: Role, n: nat): (rs: seq<Role>)
    ensures |rs| == n && forall i :: 0 <= i < n ==> rs[i] == r
  {
    if n == 0 then [] else [r] + Repeat(r, n - 1)
  }

  lemma RolesAppend(a: seq<Param>, b: seq<Param>)
    ensures Roles(a + b) == Roles(a) + Roles(b)
  {
  }

  /**
   * The parameter order of every endpoint, as a table: the path ids (the
   * resource's own id only for item endpoints), then
   * list: access, search, pagination;
   * aggregate: access, `aggregation_function`, `field`, `group_by` (when
   * configured), search, pagination;
   * create, partial and full update: data, access;
   * get and delete: access;
   * where `access` is present exactly when a security scheme is configured.
   */
  function ExpectedRoles(s: Schema, e: Endpoint): seq<Role>
  {
    var acc := if s.security then [AccessRole] else [];
    Repeat(IdRole, Depth(s) + if IsItem(e) then 1 else 0) +
    match e
    case ListEndpoint => acc + [SearchRole, PaginationRole]
    case AggregateEndpoint =>
      acc + ([FunctionRole, FieldRole] + (if s.aggregateGroupBy.Some? then [GroupByRole] else [])) + [SearchRole, PaginationRole]
    case PostEndpoint => [DataRole] + acc
    case PatchEndpoint => [DataRole] + acc
    case PutEndpoint => [DataRole] + acc
    case GetEndpoint => acc
    case DeleteEndpoint => acc
  }

  /** The roles of the pieces signatures are assembled from. */
  lemma {:induction false} IdOnlyRoles(ps: seq<Param>)
    requires forall i :: 0 <= i < |ps| ==> ps[i].kind.PathId?
    ensures Roles(ps) == Repeat(IdRole, |ps|)
  {
    if |ps| > 0 {
      IdOnlyRoles(ps[1..]);
    }
  }

  lemma IdRoles(s: Schema, b: bool)
    ensures Roles(PathSignatureId(s, b)) == Repeat(IdRole, Depth(s) + if b then 1 else 0)
  {
    IdOnlyRoles(PathSignatureId(s, b));
  }

  lemma AccessRoles(s: Schema, m: Method)
    ensures Roles(SecuritySignature(s, m)) == if s.security then [AccessRole] else []
  {
  }

  lemma SearchRoles(s: Schema)
    ensures Roles(DependsSearch(s)) == [SearchRole, PaginationRole]
  {
    var ds := DependsSearch(s);
    assert Roles(ds) == [RoleOf(ds[0]), RoleOf(ds[1])];
  }

  lemma AggregateRoles(s: Schema)
    ensures Roles(AggregateParams(s)) ==
              [FunctionRole, FieldRole] + (if s.aggregateGroupBy.Some? then [GroupByRole] else [])
  {
  }

  lemma DataRoles(s: Schema, e: Endpoint)
    ensures Roles([DataParamOf(s, e)]) == [DataRole]
  {
    var d := DataParamOf(s, e);
    assert d.kind.DataParam?;
    assert Roles([d]) == [RoleOf(d)] + Roles([]);
  }

  /** Every endpoint's parameters follow `ExpectedRoles`. */
  lemma SignatureLayout(s: Schema, e: Endpoint)
    ensures Roles(Signature(s, e)) == ExpectedRoles(s, e)
  {
    RolesAppend(PathSignatureId(s, IsItem(e)), AfterIds(s, e));
    IdRoles(s, IsItem(e));
    match e
    case ListEndpoint => ListTail(s);
    case AggregateEndpoint => AggregateTail(s);
    case PostEndpoint => WriteTail(s, e);
    case PatchEndpoint => WriteTail(s, e);
    case PutEndpoint => WriteTail(s, e);
    case GetEndpoint => AccessRoles(s, Get);
    case DeleteEndpoint => AccessRoles(s, Delete);
  }

  lemma ListTail(s: Schema)
    ensures Roles(AfterIds(s, ListEndpoint)) == (if s.security then [AccessRole] else []) + [SearchRole, PaginationRole]
  {
    AccessRoles(s, GetList);
    SearchRoles(s);
    RolesAppend(SecuritySignature(s, GetList), DependsSearch(s));
  }

  lemma AggregateTail(s: Schema)
    ensures Roles(AfterIds(s, AggregateEndpoint)) ==
              (if s.security then [AccessRole] else [])
                + ([FunctionRole, FieldRole] + (if s.aggregateGroupBy.Some? then [GroupByRole] else []))
                + [SearchRole, PaginationRole]
  {
    var a, g, d := SecuritySignature(s, GetAggregate), AggregateParams(s), DependsSearch(s);
    assert AfterIds(s, AggregateEndpoint) == a + g + d;
    AccessRoles(s, GetAggregate);
    AggregateRoles(s);
    SearchRoles(s);
    RolesOfThree(a, g, d);
  }

  lemma RolesOfThree(a: seq<Param>, b: seq<Param>, c: seq<Param>)
    ensures Roles(a + b + c) == Roles(a) + Roles(b) + Roles(c)
  {
    RolesAppend(a + b, c);
    RolesAppend(a, b);
  }

  lemma WriteTail(s: Schema, e: Endpoint)
    requires e.PostEndpoint? || e.PatchEndpoint? || e.PutEndpoint?
    ensures Roles(AfterIds(s, e)) == [DataRole] + (if s.security then [AccessRole] else [])
  {
    AccessRoles(s, ScopeMethod(e));
    DataRoles(s, e);
    RolesAppend([DataParamOf(s, e)], SecuritySignature(s, ScopeMethod(e)));
  }

  /** The signature of an endpoint starts with its path ids and holds no other path id. */
  lemma SignatureIds(s: Schema, e: Endpoint)
    ensures var ids := PathSignatureId(s, IsItem(e));
            |ids| <= |Signature(s, e)| && Signature(s, e)[..|ids|] == ids
    ensures forall i :: |PathSignatureId(s, IsItem(e))| <= i < |Signature(s, e)| ==> !Signature(s, e)[i].kind.PathId?
  {
    var ids := PathSignatureId(s, IsItem(e));
    var rest := AfterIds(s, e);
    var others := OthersAfterIds(s, e);
    var sig: seq<Param> := ids + rest;
    forall i: int | |ids| <= i < |sig| ensures !sig[i].kind.PathId? {
      assert sig[i] == rest[i - |ids|] && rest[i - |ids|] in rest;
    }
    assert sig[..|ids|] == ids;
  }

  /**
   * The `access` parameter: an endpoint carries one exactly when a security
   * scheme is configured, and every `access` parameter it carries demands
   * the scopes resolved for that endpoint's own method.
   */
  lemma AccessScopes(s: Schema, e: Endpoint)
    ensures forall p :: p in Signature(s, e) && p.kind.AccessParam? ==>
              p == Param("access", AccessParam(GetSecurityScopes(s, ScopeMethod(e))))
    ensures s.security <==> exists p :: p in Signature(s, e) && p.kind.AccessParam?
  {
    var ids := PathSignatureId(s, IsItem(e));
    var access := SecuritySignature(s, ScopeMethod(e));
    var want := Param("access", AccessParam(GetSecurityScopes(s, ScopeMethod(e))));
    assert forall p :: p in ids ==> p.kind.PathId?;
    var others := OthersAfterIds(s, e);
    assert forall p :: p in AfterIds(s, e) ==> p in access || p in others;
    if s.security {
      assert want in access && want in AfterIds(s, e);
    }
  }

  /** What follows the path ids besides `access`; none of it is an `access` parameter. */
  lemma OthersAfterIds(s: Schema, e: Endpoint) returns (others: seq<Param>)
    ensures forall p :: p in others ==> !p.kind.AccessParam? && !p.kind.PathId?
    ensures forall p :: p in AfterIds(s, e) ==> p in SecuritySignature(s, ScopeMethod(e)) || p in others
  {
    others := if e.ListEndpoint? then DependsSearch(s)
              else if e.AggregateEndpoint? then AggregateParams(s) + DependsSearch(s)
              else if e.PostEndpoint? || e.PatchEndpoint? || e.PutEndpoint? then [DataParamOf(s, e)]
              else [];
  }

  /**
   * Patch, put and the body kinds: a partial update takes the update schema
   * with every field optional, a full update takes it as declared, and a
   * create takes the create schema (a list of it only with bulk create).
   */
  lemma DataParams(s: Schema)
    ensures DataParam(s.update, AllOptional) == DataParamOf(s, PatchEndpoint).kind
    ensures DataParam(s.update, AsDeclared) == DataParamOf(s, PutEndpoint).kind
    ensures !s.createMulti ==> DataParam(s.create, AsDeclared) == DataParamOf(s, PostEndpoint).kind
  {
  }

  // ---------------------------------------------------------------------------
  // What the named dependencies and arguments carry
  // ---------------------------------------------------------------------------

  /**
   * `_depends_search` closes the list and aggregate signatures: `search`,
   * built from `search_filter_fields`, then `pagination`, whose `order_by`
   * choices are the members of `model_fields`. So every search parameter an
   * endpoint accepts belongs to a field of the model, and the endpoint can be
   * ordered by exactly the chains of the model.
   */
  lemma SearchDependencies(s: Schema, e: Endpoint)
    requires e.ListEndpoint? || e.AggregateEndpoint?
    ensures |Signature(s, e)| >= 2
    ensures var sig := Signature(s, e);
            sig[|sig| - 2] == Param("search", SearchParam(Search.SearchFilterFields(s)))
            && sig[|sig| - 1] == Param("pagination", PaginationParam(ModelFields.OrderChoices(s)))
    ensures var sig := Signature(s, e);
            forall x :: x in sig[|sig| - 1].kind.orderBy <==> ModelFields.IsChain(s, x)
    ensures var sig := Signature(s, e);
            forall p :: p in sig[|sig| - 2].kind.filters ==> Search.OwnedBy(s, s.model.fields, p)
  {
    var rest := if e.ListEndpoint? then SecuritySignature(s, GetList)
                else SecuritySignature(s, GetAggregate) + AggregateParams(s);
    assert AfterIds(s, e) == rest + DependsSearch(s);
    SignatureUnfold(s, e);
    assert PathSignatureId(s, IsItem(e)) + AfterIds(s, e) == PathSignatureId(s, IsItem(e)) + rest + DependsSearch(s);
    LastTwo(PathSignatureId(s, IsItem(e)) + rest, DependsSearch(s));
  }

  lemma LastTwo<T>(a: seq<T>, b: seq<T>)
    requires |b| == 2
    ensures |a + b| >= 2 && (a + b)[|a + b| - 2] == b[0] && (a + b)[|a + b| - 1] == b[1]
  {
  }

  /**
   * Every search parameter of a list or aggregate endpoint parses, at `__`,
   * into a field of the model that is searched and a lookup chain that field
   * admits.
   */
  lemma SearchDependencyParse(s: Schema, e: Endpoint, k: nat) returns (f: Field, lookups: seq<string>)
    requires e.ListEndpoint? || e.AggregateEndpoint?
    requires forall g :: g in s.model.fields ==> Lookups.IsSegment(g.name)
    requires |Signature(s, e)| >= 2 && Signature(s, e)[|Signature(s, e)| - 2].kind.SearchParam?
    requires k < |Signature(s, e)[|Signature(s, e)| - 2].kind.filters|
    ensures f in s.model.fields && !Search.Skipped(s, f) && Search.ValidChain(f, lookups)
    ensures Lookups.Split(Signature(s, e)[|Signature(s, e)| - 2].kind.filters[k].name) == [f.name] + lookups
  {
    SearchDependencies(s, e);
    f, lookups := Search.SearchParamsParse(s, k);
  }

  /**
   * The aggregate endpoint binds, after the ids and `access`,
   * `aggregation_function`, then `field` typed by the aggregate-fields enum,
   * then `group_by` typed by the group-by enum when one is configured.
   */
  lemma AggregateArguments(s: Schema)
    ensures var sig, n := Signature(s, AggregateEndpoint), Depth(s) + |SecuritySignature(s, GetAggregate)|;
            n + 2 <= |sig|
            && sig[n] == Param("aggregation_function", AggregationFunctionParam)
            && sig[n + 1] == Param("field", AggregateFieldParam(s.aggregateFields))
            && (s.aggregateGroupBy.Some? ==> n + 2 < |sig| && sig[n + 2] == Param("group_by", GroupByParam(s.aggregateGroupBy.value)))
            && (s.aggregateGroupBy.None? ==> forall i :: n + 2 <= i < |sig| ==> sig[i].name != "group_by")
  {
    var sig, n := Signature(s, AggregateEndpoint), Depth(s) + |SecuritySignature(s, GetAggregate)|;
    AggregateSuffix(s);
    AggregateTailShape(s);
    SliceAt(sig, n);
  }

  /** The aggregate parameters followed by the dependencies, by position. */
  lemma AggregateTailShape(s: Schema)
    ensures var t := AggregateParams(s) + DependsSearch(s);
            2 <= |t|
            && t[0] == Param("aggregation_function", AggregationFunctionParam)
            && t[1] == Param("field", AggregateFieldParam(s.aggregateFields))
            && (s.aggregateGroupBy.Some? ==> 2 < |t| && t[2] == Param("group_by", GroupByParam(s.aggregateGroupBy.value)))
            && (s.aggregateGroupBy.None? ==> forall i :: 2 <= i < |t| ==> t[i].name != "group_by")
  {
  }

  lemma SliceAt<T>(a: seq<T>, n: nat)
    requires n <= |a|
    ensures forall i :: 0 <= i < |a| - n ==> a[n + i] == a[n..][i]
    ensures forall i :: n <= i < |a| ==> a[i] == a[n..][i - n]
  {
  }

  /** After the ids and `access`, the aggregate signature is the aggregate parameters, then the dependencies. */
  lemma AggregateSuffix(s: Schema)
    ensures var sig, n := Signature(s, AggregateEndpoint), Depth(s) + |SecuritySignature(s, GetAggregate)|;
            n <= |sig| && sig[n..] == AggregateParams(s) + DependsSearch(s)
  {
    SignatureUnfold(s, AggregateEndpoint);
    AggregateSuffixAfterIds(s);
  }

  lemma SignatureUnfold(s: Schema, e: Endpoint)
    ensures Signature(s, e) == PathSignatureId(s, IsItem(e)) + AfterIds(s, e)
  {
  }

  lemma AggregateSuffixAfterIds(s: Schema)
    ensures var sig, n := PathSignatureId(s, false) + AfterIds(s, AggregateEndpoint), Depth(s) + |SecuritySignature(s, GetAggregate)|;
            n <= |sig| && sig[n..] == AggregateParams(s) + DependsSearch(s)
  {
    var ids, acc, ag, ds := PathSignatureId(s, false), SecuritySignature(s, GetAggregate), AggregateParams(s), DependsSearch(s);
    assert AfterIds(s, AggregateEndpoint) == acc + (ag + ds) by {
      assert acc + ag + ds == acc + (ag + ds);
    }
    SuffixAfter(ids, acc, ag + ds);
  }

  lemma SuffixAfter<T>(a: seq<T>, b: seq<T>, c: seq<T>)
    ensures |a| + |b| <= |a + (b + c)| && (a + (b + c))[|a| + |b|..] == c
  {
  }

  lemma AtOffset<T>(a: seq<T>, b: seq<T>)
    ensures forall i :: 0 <= i < |b| ==> (a + b)[|a| + i] == b[i]
  {
  }

  /**
   * The create and update endpoints bind the body as `data`, right after the
   * ids: the create schema (a list of it with bulk create) for POST, the
   * update schema with every field optional for PATCH, and as declared for
   * PUT.
   */
  lemma DataArgument(s: Schema, e: Endpoint)
    requires e.PostEndpoint? || e.PatchEndpoint? || e.PutEndpoint?
    ensures var sig, n := Signature(s, e), |PathSignatureId(s, IsItem(e))|;
            n < |sig| && sig[n].name == "data"
            && (e.PostEndpoint? ==> sig[n].kind == DataParam(s.create, if s.createMulti then ListOfDeclared else AsDeclared))
            && (e.PatchEndpoint? ==> sig[n].kind == DataParam(s.update, AllOptional))
            && (e.PutEndpoint? ==> sig[n].kind == DataParam(s.update, AsDeclared))
  {
    var ids := PathSignatureId(s, IsItem(e));
    SignatureUnfold(s, e);
    assert AfterIds(s, e) == [DataParamOf(s, e)] + SecuritySignature(s, ScopeMethod(e));
    AtOffset(ids, [DataParamOf(s, e)] + SecuritySignature(s, ScopeMethod(e)));
  }
}
