/**
 * Endpoint parameters as plain records: the keyword arguments the router
 * engine declares for each endpoint, with where the framework takes them from.
 */
module Params {
  import opened Results
  import opened Resources

  /** Where the framework binds a parameter from. */
  datatype ParamSource = FromPath | FromQuery | FromBody | FromDependency | FromSecurity

  /** How a request body is typed relative to the declared schema. */
  datatype DataShape =
    | AsDeclared       // the schema itself
    | ListOfDeclared   // `List[schema]` (bulk create)
    | AllOptional      // `to_optional(schema)`: every field optional

  /** The declared type of a search-filter query parameter. */
  datatype FilterType = OptionalOf(t: PyType) | OptionalListOf(t: PyType)

  datatype ParamKind =
      /** A path id of type `str` whose length is exactly `length` (min and max). */
    | PathId(length: Option<nat>)
      /** The `access` security dependency, with the scopes it demands. */
    | AccessParam(scopes: Option<seq<string>>)
      /** The request body. */
    | DataParam(schema: SchemaRef, shape: DataShape)
      /** The compiled search filter, a dependency with its own query parameters. */
    | SearchParam(filters: seq<Param>)
      /** Pagination, a dependency whose `order_by` ranges over `orderBy`. */
    | PaginationParam(orderBy: seq<string>)
      /** The `aggregation_function` path parameter. */
    | AggregationFunctionParam
      /** The aggregated `field` path parameter, typed by the aggregate-fields enum. */
    | AggregateFieldParam(fieldChoices: Option<seq<string>>)
      /** The optional `group_by` query list, typed by the group-by enum. */
    | GroupByParam(groupChoices: seq<string>)
      /** One search-filter query parameter, defaulting to `None`. */
    | FilterParam(ty: FilterType, maxLength: Option<nat>)

  datatype Param = Param(name: string, kind: ParamKind)

  function Source(k: ParamKind): ParamSource
  {
    match k
    case PathId(_) => FromPath
    case AccessParam(_) => FromSecurity
    case DataParam(_, _) => FromBody
    case SearchParam(_) => FromDependency
    case PaginationParam(_) => FromDependency
    case AggregationFunctionParam => FromPath
    case AggregateFieldParam(_) => FromPath
    case GroupByParam(_) => FromQuery
    case FilterParam(_, _) => FromQuery
  }

  /** The parameter names, in order. */
  function Names(ps: seq<Param>): (r: seq<string>)
    ensures |r| == |ps|
    ensures forall i :: 0 <= i < |ps| ==> r[i] == ps[i].name
  {
    if |ps| == 0 then [] else [ps[0].name] + Names(ps[1..])
  }

  /** The names of the parameters bound from the URL path, in order. */
  function PathNames(ps: seq<Param>): seq<string>
  {
    if |ps| == 0 then []
    else (if Source(ps[0].kind) == FromPath then [ps[0].name] else []) + PathNames(ps[1..])
  }

  lemma PathNamesAppend(a: seq<Param>, b: seq<Param>)
    ensures PathNames(a + b) == PathNames(a) + PathNames(b)
  {
    if |a| > 0 {
      assert (a + b)[1..] == a[1..] + b;
    } else {
      assert a + b == b;
    }
  }

  /** The names of the path ids among `ps`, when every parameter of `ps` is a path id. */
  lemma {:induction false} PathNamesOfIds(ps: seq<Param>)
    requires forall i :: 0 <= i < |ps| ==> ps[i].kind.PathId?
    ensures PathNames(ps) == Names(ps)
  {
    if |ps| > 0 {
      assert Source(ps[0].kind) == FromPath;
      assert forall i :: 0 <= i < |ps[1..]| ==> ps[1..][i] == ps[i + 1];
      PathNamesOfIds(ps[1..]);
    }
  }

  /** Parameters that are not bound from the path contribute no path name. */
  lemma {:induction false} PathNamesNone(ps: seq<Param>)
    requires forall i :: 0 <= i < |ps| ==> Source(ps[i].kind) != FromPath
    ensures PathNames(ps) == []
  {
    if |ps| > 0 {
      assert forall i :: 0 <= i < |ps[1..]| ==> ps[1..][i] == ps[i + 1];
      PathNamesNone(ps[1..]);
    }
  }
}
