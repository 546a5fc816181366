/**
 * The aggregation dispatcher: the `AggregationFunction` enum, the aggregate
 * each member selects, the query it builds (filter, then either one
 * aggregate over everything or a grouped, paginated projection), the
 * `{'values': [...]}` response, and which database errors become a request
 * validation error. The database is a parameter: `Store` answers the two
 * kinds of request the dispatcher makes.
 */
module Aggregation {
  import opened Results
  import opened Text
  import opened Resources

  // ---------------------------------------------------------------------------
  // Aggregation functions
  // ---------------------------------------------------------------------------

  datatype AggregationFunction = Avg | Count | Max | Min | Sum

  /** The enum member's value. */
  function FunctionValue(f: AggregationFunction): string
  {
    match f
    case Avg => "avg"
    case Count => "count"
    case Max => "max"
    case Min => "min"
    case Sum => "sum"
  }

  /** `AggregationFunction(value)`: the member with that value, if any. */
  function ParseFunction(v: string): (r: Option<AggregationFunction>)
    ensures r.Some? ==> FunctionValue(r.value) == v
  {
    if v == "avg" then Some(Avg)
    else if v == "count" then Some(Count)
    else if v == "max" then Some(Max)
    else if v == "min" then Some(Min)
    else if v == "sum" then Some(Sum)
    else None
  }

  /** Every member is found again by its value, so the five values are distinct. */
  lemma ParseFunctionValue(f: AggregationFunction)
    ensures ParseFunction(FunctionValue(f)) == Some(f)
  {
  }

  /** `aggregation_function.value.title()`: the name of the aggregate class applied. */
  function AggregateName(f: AggregationFunction): (r: string)
    ensures |r| > 0 && IsUpper(r[0])
    ensures r[1..] == FunctionValue(f)[1..]
    ensures LowerChar(r[0]) == FunctionValue(f)[0]
  {
    var v := FunctionValue(f);
    TitleOfWord(v);
    Title(v)
  }

  /** The aggregates applied are Django's `Avg`, `Count`, `Max`, `Min` and `Sum`. */
  lemma AggregateNames()
    ensures AggregateName(Avg) == "Avg" && AggregateName(Count) == "Count" && AggregateName(Max) == "Max"
    ensures AggregateName(Min) == "Min" && AggregateName(Sum) == "Sum"
  {
  }

  /** Distinct members apply distinct aggregates. */
  lemma AggregateNameInjective(f: AggregationFunction, g: AggregationFunction)
    ensures AggregateName(f) == AggregateName(g) ==> f == g
  {
    if AggregateName(f) == AggregateName(g) {
      AggregateNameLower(f);
      AggregateNameLower(g);
      ParseFunctionValue(f);
      ParseFunctionValue(g);
    }
  }

  lemma AggregateNameLower(f: AggregationFunction)
    ensures [LowerChar(AggregateName(f)[0])] + AggregateName(f)[1..] == FunctionValue(f)
  {
  }

  // ---------------------------------------------------------------------------
  // Queries and the store
  // ---------------------------------------------------------------------------

  /** An opaque compiled search filter. */
  datatype SearchQ = SearchQ(conditions: seq<string>)

  /** An opaque pagination (ordering, limit, offset). */
  datatype Pagination = Pagination(orderBy: seq<string>, limit: Option<nat>, offset: nat)

  /** `<Name>(field)`: the aggregate class named `name` over `field`. */
  datatype Aggregate = Aggregate(name: string, field: string)

  /** The queries the dispatcher builds, each step wrapping the one before. */
  datatype Query =
    | Objects                                                  // the resource's query set
    | Filtered(base: Query, filter: SearchQ)                   // `.filter(q)`
    | GroupValues(base: Query, fields: seq<string>)            // `.values(*fields)`
    | Annotated(base: Query, alias: string, agg: Aggregate)    // `.annotate(alias=agg)`
    | Paginated(base: Query, pagination: Pagination)           // `pagination.query(...)`
    | Projected(base: Query, fields: seq<string>)              // `.values(*fields)` on the result

  /** One step of a query, in the order the steps are applied. */
  datatype Step =
    | FilterStep(filter: SearchQ)
    | GroupStep(fields: seq<string>)
    | AnnotateStep(alias: string, agg: Aggregate)
    | PaginateStep(pagination: Pagination)
    | ProjectStep(fields: seq<string>)

  function Steps(q: Query): seq<Step>
  {
    match q
    case Objects => []
    case Filtered(b, f) => Steps(b) + [FilterStep(f)]
    case GroupValues(b, fs) => Steps(b) + [GroupStep(fs)]
    case Annotated(b, l, a) => Steps(b) + [AnnotateStep(l, a)]
    case Paginated(b, p) => Steps(b) + [PaginateStep(p)]
    case Projected(b, fs) => Steps(b) + [ProjectStep(fs)]
  }

  /** A database row: column name to value. */
  type Row = map<string, Value>

  /** The driver error a `ProgrammingError` was raised from. */
  datatype Cause =
    | DriverCause(sqlState: string)   // an error of the installed PostgreSQL driver
    | ForeignCause                    // any other exception

  datatype DbError =
    | ProgrammingError(cause: Option<Cause>)
    | OtherDbError(kind: string)

  /** The answer of the store to one request. */
  datatype Outcome<T> = Done(value: T) | Raised(error: DbError)

  /**
   * The database, as the two requests the dispatcher makes: evaluate a
   * query to its rows, or compute `query.aggregate(alias=agg)`.
   */
  datatype Store = Store(rows: Query -> Outcome<seq<Row>>, aggregate: (Query, string, Aggregate) -> Outcome<Row>)

  /** Which PostgreSQL driver is installed. */
  datatype Driver = Psycopg2 | Psycopg3

  /** The SQLSTATE of an undefined function. */
  const UndefinedFunctionState: string := "42883"

  /** The errors `aggregation` lets out. */
  datatype AggError =
    | RequestValidation(loc: seq<string>, original: DbError)
    | Propagated(error: DbError)
    | MissingAttribute(attribute: string)

  /** `AggregateResponse`: `{'values': [...]}`. */
  datatype AggregateResponse = AggregateResponse(values: seq<Row>)

  // ---------------------------------------------------------------------------
  // The dispatcher
  // ---------------------------------------------------------------------------

  /** What `aggregation` asks the store for. */
  datatype Request = RowsRequest(query: Query) | AggregateRequest(query: Query, alias: string, agg: Aggregate)

  /** `if group_by:` — an absent or empty list means no grouping. */
  predicate Grouped(groupBy: Option<seq<string>>)
  {
    groupBy.Some? && |groupBy.value| > 0
  }

  /**
   * The request `aggregation` makes for its arguments: the search filter is
   * applied to the given query set before anything else; with grouping, the
   * grouped rows are requested, ending in the projection onto the group
   * fields and `value`; without, one aggregate named `value` is requested.
   */
  function Plan(objects: Query, q: SearchQ, f: AggregationFunction, field: string,
                groupBy: Option<seq<string>>, pagination: Pagination): (r: Request)
    ensures r.RowsRequest? <==> Grouped(groupBy)
    ensures |Steps(objects)| < |Steps(r.query)| && Steps(r.query)[..|Steps(objects)| + 1] == Steps(objects) + [FilterStep(q)]
    ensures r.RowsRequest? ==> Steps(r.query)[|Steps(r.query)| - 1] == ProjectStep(groupBy.value + ["value"])
    ensures r.AggregateRequest? ==> r.alias == "value" && r.agg == Aggregate(AggregateName(f), field)
  {
    var query := Filtered(objects, q);
    var agg := Aggregate(AggregateName(f), field);
    if Grouped(groupBy) then
      var fields := groupBy.value;
      GroupedQueryStepsFrom(objects, q, fields, agg, pagination);
      RowsRequest(Projected(Paginated(Annotated(GroupValues(query, fields), "value", agg), pagination), fields + ["value"]))
    else
      assert Steps(query) == Steps(objects) + [FilterStep(q)];
      AggregateRequest(query, "value", agg)
  }

  /** The steps of the grouped query, after those of the query set it starts from. */
  lemma GroupedQueryStepsFrom(objects: Query, q: SearchQ, fields: seq<string>, agg: Aggregate, pagination: Pagination)
    ensures Steps(Projected(Paginated(Annotated(GroupValues(Filtered(objects, q), fields), "value", agg), pagination),
                            fields + ["value"])) ==
              Steps(objects) + [FilterStep(q), GroupStep(fields), AnnotateStep("value", agg),
                                PaginateStep(pagination), ProjectStep(fields + ["value"])]
  {
    var b := Steps(objects);
    var q1 := Filtered(objects, q);
    var q2 := GroupValues(q1, fields);
    var q3 := Annotated(q2, "value", agg);
    var q4 := Paginated(q3, pagination);
    assert Steps(q1) == b + [FilterStep(q)];
    assert Steps(q2) == b + [FilterStep(q), GroupStep(fields)];
    assert Steps(q3) == b + [FilterStep(q), GroupStep(fields), AnnotateStep("value", agg)];
    assert Steps(q4) == b + [FilterStep(q), GroupStep(fields), AnnotateStep("value", agg), PaginateStep(pagination)];
  }

  /** The request run against the store; a single aggregate becomes a one-element list. */
  function Run(store: Store, r: Request): (o: Outcome<seq<Row>>)
    ensures r.RowsRequest? ==> o == store.rows(r.query)
    ensures r.AggregateRequest? ==>
              var a := store.aggregate(r.query, r.alias, r.agg);
              (o.Done? <==> a.Done?) && (o.Done? ==> o.value == [a.value]) && (o.Raised? ==> o.error == a.error)
  {
    match r
    case RowsRequest(query) => store.rows(query)
    case AggregateRequest(query, alias, agg) =>
      match store.aggregate(query, alias, agg)
      case Done(row) => Done([row])
      case Raised(e) => Raised(e)
  }

  /**
   * The `except ProgrammingError` clause. With psycopg2 installed the cause's
   * `pgcode` is compared with the undefined-function SQLSTATE (an
   * `AttributeError` when the cause has no `pgcode`); with psycopg 3 the
   * cause is checked for being an `UndefinedFunction`, the class psycopg 3
   * raises for that SQLSTATE.
   */
  function Classify(e: DbError, driver: Driver): (r: AggError)
    ensures r.RequestValidation? <==> e == ProgrammingError(Some(DriverCause(UndefinedFunctionState)))
    ensures r.RequestValidation? ==> r.loc == ["query", "aggregation_function"] && r.original == e
    ensures r.MissingAttribute? <==>
              driver.Psycopg2? && e.ProgrammingError? && !(e.cause.Some? && e.cause.value.DriverCause?)
    ensures r.MissingAttribute? ==> r.attribute == "pgcode"
    ensures r.Propagated? ==> r.error == e
  {
    match e
    case OtherDbError(_) => Propagated(e)
    case ProgrammingError(cause) =>
      match driver
      case Psycopg3 =>
        if cause == Some(DriverCause(UndefinedFunctionState)) then RequestValidation(["query", "aggregation_function"], e)
        else Propagated(e)
      case Psycopg2 =>
        match cause
        case Some(DriverCause(state)) =>
          if state == UndefinedFunctionState then RequestValidation(["query", "aggregation_function"], e)
          else Propagated(e)
        case _ => MissingAttribute("pgcode")
  }

  /** `aggregation`. */
  function Aggregation(store: Store, driver: Driver, objects: Query, q: SearchQ, f: AggregationFunction,
                       field: string, groupBy: Option<seq<string>>, pagination: Pagination)
    : (r: Result<AggregateResponse, AggError>)
    ensures r.Success? <==> Run(store, Plan(objects, q, f, field, groupBy, pagination)).Done?
  {
    match Run(store, Plan(objects, q, f, field, groupBy, pagination))
    case Done(rows) => Success(AggregateResponse(rows))
    case Raised(e) => Failure(Classify(e, driver))
  }

  // ---------------------------------------------------------------------------
  // Properties
  // ---------------------------------------------------------------------------

  /**
   * Filter first: in both branches the first step applied to the resource's
   * query set is the search filter, and the aggregate is the one the function
   * names, over `field`, labelled `value`.
   */
  lemma FilterFirst(q: SearchQ, f: AggregationFunction, field: string,
                    groupBy: Option<seq<string>>, pagination: Pagination)
    ensures var p := Plan(Objects, q, f, field, groupBy, pagination);
            |Steps(p.query)| > 0 && Steps(p.query)[0] == FilterStep(q)
    ensures var p := Plan(Objects, q, f, field, groupBy, pagination);
            p.AggregateRequest? ==> p.agg == Aggregate(AggregateName(f), field) && p.alias == "value"
  {
    var base := Filtered(Objects, q);
    assert Steps(base) == [FilterStep(q)];
    if Grouped(groupBy) {
      GroupedSteps(q, f, field, groupBy, pagination);
    }
  }

  lemma GroupedSteps(q: SearchQ, f: AggregationFunction, field: string,
                     groupBy: Option<seq<string>>, pagination: Pagination)
    requires Grouped(groupBy)
    ensures Steps(Plan(Objects, q, f, field, groupBy, pagination).query) ==
              [FilterStep(q), GroupStep(groupBy.value), AnnotateStep("value", Aggregate(AggregateName(f), field)),
               PaginateStep(pagination), ProjectStep(groupBy.value + ["value"])]
  {
    GroupedQuerySteps(q, groupBy.value, Aggregate(AggregateName(f), field), pagination);
  }

  lemma GroupedQuerySteps(q: SearchQ, fields: seq<string>, agg: Aggregate, pagination: Pagination)
    ensures Steps(Projected(Paginated(Annotated(GroupValues(Filtered(Objects, q), fields), "value", agg), pagination),
                            fields + ["value"])) ==
              [FilterStep(q), GroupStep(fields), AnnotateStep("value", agg),
               PaginateStep(pagination), ProjectStep(fields + ["value"])]
  {
    GroupedQueryStepsFrom(Objects, q, fields, agg, pagination);
  }

  /**
   * Without grouping: one aggregate over the filtered query, no pagination,
   * and the response holds exactly that one mapping.
   */
  lemma Ungrouped(store: Store, driver: Driver, q: SearchQ, f: AggregationFunction, field: string,
                  groupBy: Option<seq<string>>, pagination: Pagination)
    requires !Grouped(groupBy)
    ensures Plan(Objects, q, f, field, groupBy, pagination)
              == AggregateRequest(Filtered(Objects, q), "value", Aggregate(AggregateName(f), field))
    ensures forall st :: st in Steps(Plan(Objects, q, f, field, groupBy, pagination).query) ==> !st.PaginateStep?
    ensures var r := Aggregation(store, driver, Objects, q, f, field, groupBy, pagination);
            var a := store.aggregate(Filtered(Objects, q), "value", Aggregate(AggregateName(f), field));
            (r.Success? <==> a.Done?) && (r.Success? ==> r.value.values == [a.value])
  {
  }

  /**
   * With grouping: the filtered query is grouped by the given fields in
   * order, annotated with `value`, paginated, and projected onto the group
   * fields followed by `value`; the response holds the rows the store returns.
   */
  lemma GroupedPlan(store: Store, driver: Driver, q: SearchQ, f: AggregationFunction, field: string,
                    groupBy: Option<seq<string>>, pagination: Pagination)
    requires Grouped(groupBy)
    ensures Steps(Plan(Objects, q, f, field, groupBy, pagination).query) ==
              [FilterStep(q), GroupStep(groupBy.value), AnnotateStep("value", Aggregate(AggregateName(f), field)),
               PaginateStep(pagination), ProjectStep(groupBy.value + ["value"])]
    ensures var r := Aggregation(store, driver, Objects, q, f, field, groupBy, pagination);
            var rows := store.rows(Plan(Objects, q, f, field, groupBy, pagination).query);
            (r.Success? <==> rows.Done?) && (r.Success? ==> r.value.values == rows.value)
  {
    GroupedSteps(q, f, field, groupBy, pagination);
  }

  /** A store whose projections return rows with exactly the projected columns. */
  ghost predicate HonoursProjections(store: Store)
  {
    forall base, fields :: store.rows(Projected(base, fields)).Done? ==>
      forall row :: row in store.rows(Projected(base, fields)).value ==> row.Keys == set c | c in fields
  }

  /** Grouped records carry the group-by values and `value`, and nothing else. */
  lemma GroupedRecordKeys(store: Store, driver: Driver, q: SearchQ, f: AggregationFunction, field: string,
                          groupBy: Option<seq<string>>, pagination: Pagination)
    requires HonoursProjections(store)
    requires Grouped(groupBy)
    ensures var r := Aggregation(store, driver, Objects, q, f, field, groupBy, pagination);
            r.Success? ==> forall row :: row in r.value.values ==>
              row.Keys == (set c | c in groupBy.value) + {"value"}
  {
    var fields := groupBy.value + ["value"];
    assert (set c | c in fields) == (set c | c in groupBy.value) + {"value"};
  }

  /**
   * The only error reclassified is a `ProgrammingError` caused by an
   * undefined function, under either driver; it becomes a request
   * validation error located at the `aggregation_function` query parameter.
   */
  lemma UndefinedFunctionReclassified(e: DbError, driver: Driver)
    ensures Classify(e, driver).RequestValidation? <==>
              e == ProgrammingError(Some(DriverCause(UndefinedFunctionState)))
    ensures Classify(e, driver).RequestValidation? ==>
              Classify(e, driver) == RequestValidation(["query", "aggregation_function"], e)
  {
  }

  /**
   * Every other error leaves unchanged, except that with psycopg2 a
   * `ProgrammingError` without a driver cause fails on reading `pgcode`.
   */
  lemma OtherErrorsPropagate(e: DbError, driver: Driver)
    requires e != ProgrammingError(Some(DriverCause(UndefinedFunctionState)))
    ensures !(driver.Psycopg2? && e.ProgrammingError? && !(e.cause.Some? && e.cause.value.DriverCause?)) ==>
              Classify(e, driver) == Propagated(e)
    ensures driver.Psycopg2? && e.ProgrammingError? && !(e.cause.Some? && e.cause.value.DriverCause?) ==>
              Classify(e, driver) == MissingAttribute("pgcode")
  {
  }

  /** A failed store request fails `aggregation` with the classified error; nothing is returned. */
  lemma FailuresClassified(store: Store, driver: Driver, objects: Query, q: SearchQ, f: AggregationFunction,
                           field: string, groupBy: Option<seq<string>>, pagination: Pagination)
    requires Run(store, Plan(objects, q, f, field, groupBy, pagination)).Raised?
    ensures Aggregation(store, driver, objects, q, f, field, groupBy, pagination)
              == Failure(Classify(Run(store, Plan(objects, q, f, field, groupBy, pagination)).error, driver))
  {
  }
}
