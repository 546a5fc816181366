/**
 * The data model of a `DjangoRouterSchema`: the Django model it exposes
 * (fields with their kinds and annotations), the resource descriptor with its
 * parent chain, enable flags and security settings, and the descriptor tree
 * that the router is built from.
 */
module Resources {
  import opened Results

  /** The annotation a model declares for a field (`model.__annotations__`). */
  datatype PyType =
    | StrType
    | IntType
    | DecimalType
    | DateType
    | DateTimeType
    | BoolType
    | OtherType(typeName: string)
    | NoAnnotation

  /**
   * The kind of a Django model field as far as the router engine looks at it.
   * A foreign key holds the model it points to, so the foreign-key graph of a
   * model is a finite tree.
   */
  datatype FieldKind =
    | PlainField
    | CharField(hasChoices: bool, maxLength: Option<nat>)
    | IntegerField
    | DecimalField
    | DateField
    | DateTimeField
    | ForeignKey(target: Model)
    | ReverseRelation

  /** One entry of `model._meta.get_fields()`. */
  datatype Field = Field(name: string, kind: FieldKind, declared: PyType, primaryKey: bool)

  /**
   * A Django model class: its class name, its fields in `_meta` order, whether
   * it has a `tenant_id` attribute, and the `max_length` of its `id` field.
   */
  datatype Model = Model(name: string, fields: seq<Field>, hasTenantId: bool, idMaxLength: Option<nat>)

  /** The router methods that security scopes are keyed by. */
  datatype Method = GetList | GetAggregate | Post | Get | Patch | Put | Delete

  /**
   * A pydantic schema slot (`list`, `get`, `create`, `update`): unset or falsy,
   * the placeholder `...`, or a declared schema.
   */
  datatype SchemaRef = Unset | EllipsisRef | Declared(schemaName: string)

  /** A Python value, as far as its truthiness matters. */
  datatype Value = NoneValue | BoolValue(b: bool) | IntValue(i: int) | StrValue(s: string)

  /** Python truthiness of a value. */
  predicate Truthy(v: Value)
  {
    match v
    case NoneValue => false
    case BoolValue(b) => b
    case IntValue(i) => i != 0
    case StrValue(s) => |s| > 0
  }

  /** The resolved caller: the tenant it acts for. */
  datatype Access = Access(tenantId: string)

  /**
   * A resource descriptor. `aggregateFields` and `aggregateGroupBy` are the
   * values of the two optional enums; `securityScopes` is the per-method scope
   * table; `security` says whether a security scheme is configured.
   */
  datatype Schema = Schema(
    name: string,
    model: Model,
    parent: Option<Schema>,
    list: SchemaRef,
    get: SchemaRef,
    create: SchemaRef,
    update: SchemaRef,
    aggregateFields: Option<seq<string>>,
    aggregateGroupBy: Option<seq<string>>,
    delete: bool,
    security: bool,
    securityScopes: map<Method, seq<string>>,
    deleteStatus: Value,
    createMulti: bool)

  /** A descriptor together with the descriptors mounted beneath it (`children`). */
  datatype SchemaTree = SchemaTree(schema: Schema, children: seq<SchemaTree>)

  /** A schema slot enables its route when it is neither falsy nor `...`. */
  predicate Enabled(r: SchemaRef)
  {
    r.Declared?
  }

  /** The model of the immediate parent, if there is a parent. */
  function ParentModel(s: Schema): Option<Model>
  {
    if s.parent.Some? then Some(s.parent.value.model) else None
  }

  /** `self.parent and related_model == self.parent.model`. */
  predicate IsParentModel(s: Schema, m: Model)
  {
    ParentModel(s) == Some(m)
  }

  /** Number of strict ancestors. */
  function Depth(s: Schema): nat
  {
    if s.parent.None? then 0 else 1 + Depth(s.parent.value)
  }

  /** The `k`-th ancestor: `s` itself for 0, its parent for 1, and so on. */
  function Ancestor(s: Schema, k: nat): Schema
    requires k <= Depth(s)
  {
    if k == 0 then s else Ancestor(s.parent.value, k - 1)
  }

  lemma AncestorOfParent(s: Schema, k: nat)
    requires s.parent.Some?
    requires k <= Depth(s.parent.value)
    ensures Ancestor(s, k + 1) == Ancestor(s.parent.value, k)
  {
  }
}
