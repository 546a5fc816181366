# djfapi router engine in Dafny

This project models the core of djfapi's Django router engine. A
`DjangoRouterSchema` describes one REST resource: a Django model, optional
read/create/update schemas, a parent resource, security scopes, aggregate
enums and a delete policy. From that description the engine derives:

- the identifier field of the resource (`<model>_id`, with the parent's
  singular name stripped when it is a prefix) and its path placeholder;
- the router prefix, and the routes it registers in a fixed order: list,
  aggregate, create, get, partial update, full update, delete, then every
  child's router;
- each endpoint's parameter list: the path ids of the parent chain (plus the
  resource's own id for item endpoints), the `access` security parameter, the
  request body, the search and pagination dependencies, and the aggregate path
  and query parameters;
- the scopes an operation demands, inherited from the nearest ancestor that
  declares scopes for the same method;
- the search filter's query parameters, which are exact match,
  `__gte`/`__lte` ranges (with date-part variations), `__in` and
  `__icontains`;
- the `model_fields` enum of orderable names;
- the object mediator, which covers the `create_multi` refusal, record
  creation with tenant stamping, the tenant filter, the update transfer modes,
  and soft versus hard delete.

It also models the aggregation dispatcher of `fastapi_django.py`. That covers
the `AggregationFunction` enum, the aggregate each member applies, the query
it builds (grouped and paginated, or a single aggregate), the
`{'values': [...]}` response, and the way an undefined-function database
error becomes a request validation error.

Modules, in dependency order:

| module | file | what |
|---|---|---|
| `Results` | results.dfy | `Option` and `Result` |
| `Text` | text.dfy | ASCII lower/title case, `removeprefix`, path-template placeholders |
| `Lookups` | lookups.dfy | `__`-joined Django lookup paths and their splitting |
| `Resources` | resources.dfy | models, fields, descriptors, descriptor trees, ancestors |
| `Params` | params.dfy | endpoint parameters and where they are bound from |
| `Paths` | paths.dfy | `id_field`, placeholders, router prefixes |
| `Security` | security.dfy | scope inheritance and the `access` parameter |
| `ModelFields` | model_fields.dfy | `model_fields` |
| `Search` | search.dfy | `search_filter_fields`, `search_filter` |
| `Signatures` | signatures.dfy | `_path_signature_id`, `_get_ids`, `_object_get`, endpoint signatures |
| `Routes` | routes.dfy | `_create_router`, mounting, route paths |
| `Mediator` | mediator.dfy | `__init__` check, `objects_filter`, `object_create/update/delete` |
| `Aggregation` | aggregation.dfy | `AggregationFunction`, `AggregateResponse`, `aggregation` |

Parameters stand in for what the engine cannot see:

- The database is a `Store` parameter. It answers row queries and single
  aggregates with either rows or a raised database error.
- The PostgreSQL driver that the import at the top of `fastapi_django.py`
  finds is a `Driver` parameter (psycopg2 or psycopg 3).
- The caller's resolved `Access` is an optional argument.

Where the design description and the code differ, the model follows the
code. In particular:

- `model_fields` has no cycle guard and does not skip self-references. It
  only skips foreign keys to the parent's model.
- The search filter has no `__isnull` parameters and no default exclusion of
  soft-deleted records.
- `object_create` does not stamp the parent id.
- Scope inheritance does not remap write methods onto the parent's update
  scopes: it looks up the same method on every ancestor.
- The `access` parameter is present whenever a security scheme is
  configured, even when no scope resolves.
- `model_fields` is an enum of plain names, with no descending variants and
  no numeric-only restriction.
- Under psycopg2, a `ProgrammingError` with no cause, or with a cause that
  has no `pgcode`, is not re-raised. Reading `.pgcode` raises an
  `AttributeError` in its place.

## Model

The proofs that carry the weight are the inductive ones. `NamesAreChains`
characterises `model_fields` by foreign-key chains in both directions.
`SplitJoin` shows that `__`-joined lookup paths split back into their
segments, and `FieldFilterNames` builds on it to characterise each field's
search parameters. `RoutePaths` and `RoutePlaceholders` follow mounting
through the whole descriptor tree. `BuildRouter` and `Sign` tie a failed
build to a repeated path-id name. The remaining rows are mostly direct
consequences of the definitions.

| member | source | states |
|---|---|---|
| Paths.IdField | djfapi/routing/django.py:48-62 | the id field ends in `_id`; its stem is the lower-cased model name, with the parent's singular name removed exactly when it is a prefix of it |
| Text.Lower | djfapi/routing/django.py:48-50 | lower-casing keeps the length, leaves no upper-case letter, keeps every other character, and turns each upper-case letter into its own lower-case letter |
| Text.RemovePrefix | djfapi/routing/django.py:59-60 | `removeprefix`: when `p` is a prefix, `p` followed by the result is the input; otherwise the input is returned unchanged |
| Paths.IdFieldPlaceholder | djfapi/routing/django.py:64-66 | the only placeholder of `/{<id_field>}` is the id field |
| Paths.RouterPrefix | djfapi/routing/django.py:111-116 | the only placeholder of a router's prefix is its parent's id field; a root router's prefix has none |
| Paths.FullPrefix | djfapi/routing/django.py:111-116 | the path from the root to a resource's collection extends its parent's and ends in `/<name>` |
| Routes.OwnRoutes | djfapi/routing/django.py:111-135 | a resource registers one route per gated endpoint and one only for those, each serving that resource under its own router prefix |
| Routes.Routes | djfapi/routing/django.py:111-139 | a router's routes are its own routes, followed by every child's routes mounted under its prefix |
| Routes.RegisteredEndpoints | djfapi/routing/django.py:118-135 | an endpoint is registered exactly when its slot is declared (list, create, get, update), the aggregate enum is set, or `delete` is set; registration follows the fixed order list, aggregate, post, get, patch, put, delete |
| Routes.KeepOrdered | djfapi/routing/django.py:118-135 | filtering the endpoints by their gates keeps them in registration order |
| Routes.RouteShapes | djfapi/routing/django.py:111-160 | every route of a router serves a gated endpoint of a resource in its tree, with that endpoint's HTTP method, signature and status |
| Routes.RouteFor | djfapi/routing/django.py:118-139 | every gated endpoint of every resource in the tree has a route, so no endpoint is lost when child routers are mounted |
| Routes.DeleteStatus | djfapi/routing/django.py:141-160 | a route answers 204 exactly when it is the DELETE route; no other route names a status |
| Routes.RoutePaths | djfapi/routing/django.py:111-160 | in a rooted tree every route's path is the resource's full prefix (each ancestor's name and id placeholder, root first, then its own name) followed by the endpoint's local path |
| Routes.FullPrefixSplit | djfapi/routing/django.py:111-116 | a resource's full path prefix is the path of the router it is mounted into, followed by its own router prefix (the parent's id placeholder, then `/<name>`) |
| Routes.PrefixPlaceholders | djfapi/routing/django.py:64-66 | the placeholders of a resource's full prefix are the names of the parent path ids, root first |
| Routes.LocalPlaceholders | djfapi/routing/django.py:141-160 | an item path holds the resource's id placeholder, the aggregate path holds `aggregation_function` and `field`, and collection paths hold none |
| Routes.AggregatePlaceholders | djfapi/routing/django.py:144-145 | the aggregate route's path binds `aggregation_function` and then `field` |
| Routes.SignaturePathNames | djfapi/routing/django.py:347-453 | the path-bound parameters of every endpoint signature are the parent ids, then the own id on item endpoints, then the aggregate's function and field |
| Routes.TailPathNames | djfapi/routing/django.py:347-453 | after the ids, only the aggregate endpoint binds path parameters |
| Routes.EndpointPlaceholders | djfapi/routing/django.py:141-160 | the placeholders of an endpoint's full path equal the path parameters of its signature, in order |
| Routes.RoutePlaceholders | djfapi/routing/django.py:111-160 | in a well-formed rooted tree every route's path template names exactly its endpoint's path parameters, in order |
| Security.GetSecurityScopes | djfapi/routing/django.py:220-227 | the result is the scope list of the nearest resource on the chain (itself first) with non-empty scopes for that method; `None` exactly when no resource on the chain has any |
| Security.SecuritySignature | djfapi/routing/django.py:229-235 | one `access` parameter carrying the resolved scopes when a security scheme is set, and none otherwise |
| Signatures.PathSignatureId | djfapi/routing/django.py:237-242 | one id parameter per ancestor, root first, then the own id when asked; entry `i` is the id of the ancestor `Depth - i` levels up |
| Signatures.OwnIds | djfapi/routing/django.py:237-242 | an item endpoint's ids are the collection's ids followed by the resource's own id |
| Signatures.ArgValues | djfapi/routing/django.py:244-246 | the bound values of the id parameters in order; a missing name (a `KeyError`) gives `None` exactly when some parameter is unbound |
| Signatures.ObjectGet | djfapi/routing/django.py:405-407 | the looked-up id is the resource's own id argument, and the parent ids are exactly those a collection endpoint of the resource reads, one per ancestor |
| Signatures.Sign | djfapi/routing/django.py:347-453 | `forge.sign` accepts a parameter list, unchanged, exactly when no two parameters share a name, and otherwise names a repeated one |
| Signatures.Signature | djfapi/routing/django.py:347-453 | an endpoint's parameter list can be signed exactly when its path ids have distinct names; nothing after the ids can clash |
| Signatures.SignsIffDistinctIds | djfapi/routing/django.py:347-453 | an endpoint's full parameter list signs exactly when its path ids have distinct names, since the parameters after the ids have distinct fixed names that do not end in `_id` |
| Routes.BuildRouter | djfapi/routing/django.py:111-139 | under the duplicate-name check of `forge.sign`, building the router succeeds exactly when no gated endpoint anywhere in the tree repeats a path-id name, and then yields the tree's routes |
| Routes.CollidingIdNames | djfapi/routing/django.py:56-62 | `lines` (`OrderItem`) under `orders` (`Order`) under `items` (`Item`) gets the id name `item_id`, as the root does, so its item routes cannot be signed and building the router fails |
| Signatures.SearchDependencies | djfapi/routing/django.py:339-352 | the list and aggregate signatures end with `search`, carrying `search_filter_fields`, then `pagination`, whose `order_by` choices are exactly the chains of `model_fields`; every search parameter belongs to a searched field of the model |
| Signatures.SearchDependencyParse | djfapi/routing/django.py:336-341 | every search parameter of a list or aggregate endpoint splits at `__` into a searched field of the model and a lookup chain that field admits |
| Signatures.AggregateArguments | djfapi/routing/django.py:377-385 | after the ids and `access` the aggregate endpoint binds `aggregation_function`, then `field` typed by the aggregate-fields enum, then `group_by` typed by the group-by enum exactly when one is configured |
| Signatures.DataArgument | djfapi/routing/django.py:394-441 | the create and update endpoints bind the body as `data` right after the ids: the create schema (a list of it with bulk create), the update schema all-optional for PATCH, as declared for PUT |
| Signatures.SignatureLayout | djfapi/routing/django.py:347-453 | each endpoint's parameter roles, in order: ids, then `access` if secured, then per endpoint search and pagination, aggregate function, field and group-by, or the body |
| Signatures.ListTail | djfapi/routing/django.py:347-352 | after the ids the list endpoint takes `access` (if secured), search and pagination |
| Signatures.AggregateTail | djfapi/routing/django.py:377-385 | after the ids the aggregate endpoint takes `access`, function, field, group-by only when a group-by enum is set, then search and pagination |
| Signatures.WriteTail | djfapi/routing/django.py:394-441 | after the ids the create and update endpoints take the body, then `access` |
| Signatures.IdRoles | djfapi/routing/django.py:237-242 | the id prefix of a signature consists only of path ids, one per ancestor plus one for item endpoints |
| Signatures.SignatureIds | djfapi/routing/django.py:347-453 | every signature starts with its path ids, and no path id appears after them |
| Signatures.AccessScopes | djfapi/routing/django.py:229-235 | every `access` parameter of a signature carries the scopes resolved for that endpoint's method, and a signature has one exactly when security is configured |
| Signatures.OthersAfterIds | djfapi/routing/django.py:347-453 | apart from the security parameter, nothing after the ids is an `access` or path-id parameter |
| Signatures.DataParams | djfapi/routing/django.py:394-441 | PATCH takes the update schema with every field optional, PUT takes it as declared, and POST takes the create schema |
| ModelFields.NamesAreChains | djfapi/routing/django.py:68-88 | a name is produced exactly when it spells a chain of foreign keys avoiding the parent's model and ending in a non-foreign-key field, with `__count` for reverse relations |
| ModelFields.NamesSound | djfapi/routing/django.py:70-86 | every produced name is spelled by such a chain |
| ModelFields.NamesComplete | djfapi/routing/django.py:70-86 | every such chain spells a produced name |
| ModelFields.Dedup | djfapi/routing/django.py:88 | the dict keeps each name once and loses none, and its keys are in the order of their first occurrences |
| ModelFields.FieldsEnum | djfapi/routing/django.py:88 | one enum member per distinct name, in first-occurrence order; each member's value is its own name |
| ModelFields.FieldNames | djfapi/routing/django.py:72-84 | every name one field contributes starts with the prefix and the field's name; a foreign key to the parent's model contributes none, and a field that is not a foreign key exactly one |
| ModelFields.OrderChoices | djfapi/routing/django.py:342-343 | the `order_by` choices are the members of `model_fields`, in order, each once, and are exactly the chains of the resource |
| ModelFields.ModelFieldsEnum | djfapi/routing/django.py:68-88 | the members of `model_fields` are exactly the chains of foreign keys from the model that avoid the parent's model and end in a non-foreign-key field |
| Search.FieldFilters | djfapi/routing/django.py:266-334 | a field contributes no parameter exactly when it is a primary key, `tenant_id`, a reverse relation, or a foreign key to the parent's model |
| Search.FieldFilterCount | djfapi/routing/django.py:285-332 | parameters per field: 1 for plain, foreign-key or choice fields, 2 for free text, 3 for integer or decimal, 15 or 3 for dates and 29 or 17 for date-times, depending on the `date` annotation |
| Search.ExactFirst | djfapi/routing/django.py:322-332 | the exact-match parameter comes first, carrying the field's `max_length` when it is free text; a free-text field has exactly one more, `__icontains`, optional of the declared type and limited to `max_length`; a choice field has only its `__in` list parameter |
| Search.SearchFilterFields | djfapi/routing/django.py:266-334 | every parameter of the flattened list belongs to the list of one field of the model that is not skipped |
| Search.RangeParams | djfapi/routing/django.py:313-320 | two parameters per variation, `__gte` then `__lte`, both optional of the variation's type |
| Search.PartVariationsSplit | djfapi/routing/django.py:301-311 | each of the six date-part variations of a `__`-joined date path is typed `int` and splits back into that path's segments followed by its part: year, quarter, month, day, week, week_day |
| Search.VariationAt | djfapi/routing/django.py:296-311 | the variations of a range field, in order: the field itself, `__date` for date-times, the field's own date parts when annotated `date`, then the `__date` parts |
| Search.FiltersInModelOrder | djfapi/routing/django.py:266-334 | the parameters of `a + b` are those of `a`, then those of `b`: model order is kept |
| Search.FilterOwner | djfapi/routing/django.py:334 | every parameter of the flattened list belongs to one field's list |
| Search.ParamChain | djfapi/routing/django.py:266-334 | every parameter is named `<field>__<lookup>...` with a lookup chain the field admits |
| Search.ChainParam | djfapi/routing/django.py:266-334 | every lookup chain a field admits is the name of one of its parameters |
| Search.FieldFilterNames | djfapi/routing/django.py:266-334 | a name belongs to a field's parameters exactly when it is the field's name joined with an admitted lookup chain |
| Search.SearchParamsParse | djfapi/routing/django.py:266-334 | splitting any search parameter name at `__` gives back the field it belongs to and its admitted lookups |
| Search.SearchFilter | djfapi/routing/django.py:263-264 | `remove_none`: exactly the arguments that are not `None` are kept, with their values |
| Search.SearchFilterIdempotent | djfapi/routing/django.py:263-264 | removing `None` arguments twice is the same as removing them once |
| Lookups.SplitJoin | djfapi/routing/django.py:313-332 | splitting a `__`-joined name of legal Django segments returns the segments |
| Lookups.JoinSnoc | djfapi/routing/django.py:319-320 | appending a lookup adds one separator and the lookup |
| Lookups.SplitSnoc | djfapi/routing/django.py:306-311 | appending a legal segment to a joined path and splitting gives the path's segments followed by that segment |
| Mediator.ValidateSchema | djfapi/routing/django.py:38-43 | a descriptor is refused with `NotImplementedError` exactly when bulk create is enabled |
| Mediator.ObjectsFilter | djfapi/routing/django.py:172-176 | a tenant model filters on the caller's tenant and fails with an `AttributeError` exactly when no caller is given; other models are not filtered |
| Mediator.NewRecord | djfapi/routing/django.py:199-202 | the fresh instance keeps its default fields and status; its `tenant_id` becomes the caller's when the model has one and a caller is given, and otherwise it is the fresh instance unchanged |
| Mediator.ObjectCreate | djfapi/routing/django.py:191-207 | a list is refused (`create_multi_disabled`) exactly when bulk create is off; otherwise one record per payload, in order, each the fresh instance as stamped before `transfer_to_orm`, with a CREATE transfer that does not skip unset fields |
| Mediator.ValidSchemaRefusesLists | djfapi/routing/django.py:41-43 | a descriptor that passes the constructor's check has bulk create off, so `object_create` refuses every list (lines 195-196) |
| Mediator.CreatedVisibleToCreator | djfapi/routing/django.py:198-202 | what a caller creates, as stamped before `transfer_to_orm`, that caller's tenant filter finds |
| Mediator.CreatedHiddenFromOthers | djfapi/routing/django.py:198-202 | on a tenant model what one tenant creates, as stamped before `transfer_to_orm`, no other tenant's filter finds |
| Mediator.CreatedWithoutCallerKeepsDefault | djfapi/routing/django.py:200-202 | on a tenant model, a record created without a caller keeps the fresh instance's default `tenant_id`, and a tenant's filter finds it exactly when that default names the tenant |
| Mediator.UpdateAction | djfapi/routing/django.py:419-434 | PATCH asks for `NO_SUBOBJECTS` and PUT for `SYNC`; neither asks for `CREATE` |
| Mediator.ObjectUpdate | djfapi/routing/django.py:209-210 | unset fields are skipped exactly for a `NO_SUBOBJECTS` transfer; payload, mode and caller are passed on |
| Mediator.UpdateModes | djfapi/routing/django.py:419-434 | PATCH records a `NO_SUBOBJECTS` transfer with `exclude_unset` true; PUT records a `SYNC` transfer with `exclude_unset` false |
| Mediator.ObjectDelete | djfapi/routing/django.py:212-218 | the record is kept with its status set exactly when `delete_status` is truthy, with fields and tenant unchanged; otherwise it is removed |
| Mediator.SoftDeleteIdempotent | djfapi/routing/django.py:212-218 | soft-deleting a soft-deleted record changes nothing |
| Mediator.SoftDeleteStaysVisible | djfapi/routing/django.py:212-218 | a soft-deleted record passes a filter exactly when it did before |
| Mediator.FalsyStatusRemoves | djfapi/routing/django.py:213-218 | a `None`, `False`, `0` or `''` delete status means a hard delete |
| Aggregation.ParseFunction | djfapi/utils/fastapi_django.py:22-27 | a string parses to a member only when it is that member's value |
| Aggregation.ParseFunctionValue | djfapi/utils/fastapi_django.py:22-27 | every member's value parses back to that member |
| Aggregation.AggregateName | djfapi/utils/fastapi_django.py:50 | `value.title()`: the first letter upper-cased, the rest of the value unchanged |
| Aggregation.AggregateNames | djfapi/utils/fastapi_django.py:50 | the aggregates applied are `Avg`, `Count`, `Max`, `Min` and `Sum` |
| Aggregation.AggregateNameInjective | djfapi/utils/fastapi_django.py:50 | distinct members apply distinct aggregates |
| Aggregation.Plan | djfapi/utils/fastapi_django.py:46-61 | the search filter is the first step after the given query set; rows are requested exactly when `group_by` is non-empty, ending in the projection onto the group fields and `value`; otherwise one aggregate named `value` with the member's aggregate over the field |
| Aggregation.Run | djfapi/utils/fastapi_django.py:53-61 | grouped rows are the store's answer as it is; a single aggregate succeeds exactly when the store's does, as a one-element list, and fails with the store's error |
| Aggregation.Classify | djfapi/utils/fastapi_django.py:63-71 | a request validation error at `('query', 'aggregation_function')` exactly for a `ProgrammingError` caused by the undefined-function SQLSTATE; an `AttributeError` on `pgcode` exactly under psycopg2 for a `ProgrammingError` without a driver cause; anything else re-raised unchanged |
| Aggregation.Aggregation | djfapi/utils/fastapi_django.py:37-73 | the call succeeds exactly when the store answers the planned request |
| Aggregation.FilterFirst | djfapi/utils/fastapi_django.py:46-50 | the search filter is applied first, and the ungrouped request aggregates the field as `value` with the member's aggregate |
| Aggregation.GroupedSteps | djfapi/utils/fastapi_django.py:54-57 | a non-empty `group_by` filters, groups by its fields, annotates `value`, paginates, then projects the group fields and `value` |
| Aggregation.GroupedPlan | djfapi/utils/fastapi_django.py:54-57 | with a non-empty `group_by` the response values are exactly the rows of the grouped query |
| Aggregation.Ungrouped | djfapi/utils/fastapi_django.py:59-61 | without `group_by` (absent or empty) one aggregate over the filtered set is requested, nothing is paginated, and the response holds exactly that one record |
| Aggregation.GroupedRecordKeys | djfapi/utils/fastapi_django.py:30-34 | each grouped response record has exactly the group fields and `value` as keys |
| Aggregation.UndefinedFunctionReclassified | djfapi/utils/fastapi_django.py:63-69 | a failure becomes a request validation error at `('query', 'aggregation_function')` exactly when it is a `ProgrammingError` caused by SQLSTATE 42883 (undefined function) |
| Aggregation.OtherErrorsPropagate | djfapi/utils/fastapi_django.py:63-71 | every other error is re-raised unchanged, except under psycopg2 a `ProgrammingError` without a driver cause, whose `.pgcode` lookup raises an `AttributeError` |
| Aggregation.FailuresClassified | djfapi/utils/fastapi_django.py:63-71 | a raised store error always comes back classified, never as values |

## Left out

- The ORM calls are not modelled: `get_queryset`, `objects_get_filtered`, `object_get_by_id`, and the annotation with reverse-relation counts. The store is a parameter, and `ObjectGet` stops at the ids it would look up.
- `transfer_to_orm` is external. A transfer is recorded with its payload, mode, `exclude_unset` flag and caller, and is not applied.
- Response shaping is not modelled. That covers `from_orm`, `get_referenced`, `update_optional`, the list model of `_init_list`, `response_model`, and the `''` body of delete. The endpoint bodies that only wrap the mediator in these are not modelled either. This includes the `IndexError` that `endpoint_post` raises on an empty list, which only an enabled bulk create could reach.
- Pagination internals (`depends_pagination`, `pagination_options`, `default_order_by`) are left out. Pagination is an opaque value, and only `order_by`'s choices are modelled.
- The `forge` and FastAPI signature machinery is left out. A parameter is a record of its name, kind and binding source. The one check of `forge.sign` that is kept is its refusal of a repeated parameter name (`Sign`). `_create_router` builds every endpoint eagerly, so a chain that repeats an id name (`CollidingIdNames`) fails when the router is built (`BuildRouter`). `Routes(t)` is the router of a tree that builds, and `ArgValues` on a repeated name is never reached.
- The lazy, cached router (`__router`, `cached_property`) is left out. Routes are a pure function of the descriptor tree.
- Aggregate numerics (`Union[int, float, Decimal]`) are opaque values produced by the store.
- The import fallback between psycopg2 and psycopg 3 is the `Driver` parameter.
- Foreign keys hold their target model by value, so the foreign-key graph is acyclic by construction and no model can refer to itself. This leaves out two cases. One is a model with a foreign key to its own model, nested under a resource of that model: `model_fields` terminates there, because it skips foreign keys to the parent's model (django.py:78-79). The other is a cycle of foreign keys that avoids the parent's model, on which `model_fields` does not terminate.
- Mediator.NewRecord: the fresh instance `self.model()` is the `blank` parameter, because its field defaults come from the Django model class, which is not modelled.
- Mediator.CreatedVisibleToCreator: states the record as stamped at lines 200-202, before `transfer_to_orm` (line 204). That transfer is not applied, and it could overwrite `tenant_id` from the payload.
- Mediator.CreatedHiddenFromOthers: states the record as stamped, before `transfer_to_orm`, for the same reason.
- Mediator.CreatedWithoutCallerKeepsDefault: states the record as stamped, before `transfer_to_orm`, for the same reason.
- Routes.BuildRouter: succeeds on some trees where the real construction fails, because only the duplicate-name refusal of `forge.sign` is modelled. Its refusal of a name that is not a Python identifier is not modelled; `2_id`, for a model `Item2` nested under `Item`, is such a name.
- Model identity (`related_model == self.parent.model`) is structural equality of model values.
- Text.Lower: only ASCII letters are lowered, because `str.lower` on non-ASCII text depends on Unicode tables outside this model.
- Aggregation.AggregateName: `str.title` is modelled for ASCII only, for the same reason. The five member values are ASCII.
- Field annotations are taken as given per field (`NoAnnotation` when the model declares none), and the `Optional[...]` type is kept symbolic.
