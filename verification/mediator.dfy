/**
 * The object mediator of `DjangoRouterSchema`: the `create_multi` check made
 * when a descriptor is built, how records are created for a payload, the
 * tenant filter every query starts from, which transfer mode an update asks
 * for, and soft versus hard delete. A record is abstract: its field values,
 * its tenant and its status.
 */
module Mediator {
  import opened Results
  import opened Resources

  /** The errors the mediator raises. */
  datatype Error =
    | NotImplemented                      // `create_multi` on a Django descriptor
    | ValidationError(code: string)       // rejected request body
    | AttributeError(attribute: string)   // `access.tenant_id` read on `None`

  /** A record of the exposed model: field values, `tenant_id` and `status` (`None` when it has none). */
  datatype Record = Record(fields: map<string, Value>, tenantId: Option<string>, status: Option<Value>)

  /** A request body, kept opaque: only its field values. */
  datatype Payload = Payload(values: map<string, Value>)

  /** The body of a create: one payload or a list of them. */
  datatype CreateData = One(payload: Payload) | Many(payloads: seq<Payload>)

  /** The transfer modes `transfer_to_orm` is asked for. */
  datatype TransferAction = Create | Sync | NoSubobjects

  /** One call of `transfer_to_orm`: what is copied, how, and for whom. */
  datatype Transfer = Transfer(payload: Payload, action: TransferAction, excludeUnset: bool, access: Option<Access>)

  /** A record made by `object_create`, with the transfer that fills it in. */
  datatype Created = Created(record: Record, transfer: Transfer)

  /** The filter `objects_filter` returns. */
  datatype Filter = TenantEquals(tenantId: string) | Everything

  /** The outcome of `object_delete`: the record kept with a new status, or removed. */
  datatype DeleteOutcome = Kept(record: Record) | Removed

  /** The two update endpoints. */
  datatype UpdateEndpoint = PatchUpdate | PutUpdate

  // ---------------------------------------------------------------------------
  // Construction check
  // ---------------------------------------------------------------------------

  /** `__init__`: a descriptor with bulk create enabled is refused. */
  function ValidateSchema(s: Schema): (r: Result<Schema, Error>)
    ensures r.Failure? <==> s.createMulti
    ensures r.Failure? ==> r.error == NotImplemented
    ensures r.Success? ==> r.value == s
  {
    if s.createMulti then Failure(NotImplemented) else Success(s)
  }

  // ---------------------------------------------------------------------------
  // Tenant filter
  // ---------------------------------------------------------------------------

  /** `objects_filter`. */
  function ObjectsFilter(s: Schema, access: Option<Access>): (r: Result<Filter, Error>)
    ensures r.Failure? <==> s.model.hasTenantId && access.None?
    ensures r.Failure? ==> r.error == AttributeError("tenant_id")
    ensures r.Success? && s.model.hasTenantId ==> r.value == TenantEquals(access.value.tenantId)
    ensures !s.model.hasTenantId ==> r == Success(Everything)
  {
    if s.model.hasTenantId then
      if access.Some? then Success(TenantEquals(access.value.tenantId))
      else Failure(AttributeError("tenant_id"))
    else Success(Everything)
  }

  /** Whether a record passes a filter. */
  predicate Matches(f: Filter, rec: Record)
  {
    match f
    case TenantEquals(t) => rec.tenantId == Some(t)
    case Everything => true
  }

  // ---------------------------------------------------------------------------
  // Create
  // ---------------------------------------------------------------------------

  /**
   * `self.model()` then the tenant stamp: `blank` is the fresh instance with
   * the model's field defaults; its `tenant_id` is overwritten with the
   * caller's exactly when the model has one and a caller is given, and
   * nothing else is touched.
   */
  function NewRecord(s: Schema, access: Option<Access>, blank: Record): (r: Record)
    ensures r.fields == blank.fields && r.status == blank.status
    ensures s.model.hasTenantId && access.Some? ==> r.tenantId == Some(access.value.tenantId)
    ensures !(s.model.hasTenantId && access.Some?) ==> r == blank
  {
    if s.model.hasTenantId && access.Some? then blank.(tenantId := Some(access.value.tenantId)) else blank
  }

  /**
   * A newly made record, as stamped and before its transfer is applied: the
   * fresh instance's defaults, with the caller's tenant when the model has
   * `tenant_id` and a caller is given, to be filled by a `CREATE` transfer
   * that does not skip unset fields.
   */
  predicate FreshlyCreated(s: Schema, access: Option<Access>, blank: Record, c: Created)
  {
    && c.record.fields == blank.fields
    && c.record.status == blank.status
    && c.record.tenantId == (if s.model.hasTenantId && access.Some? then Some(access.value.tenantId) else blank.tenantId)
    && c.transfer.action == Create
    && !c.transfer.excludeUnset
    && c.transfer.access == access
  }

  /**
   * `object_create`: a single payload is wrapped in a list; a list is refused
   * unless bulk create is enabled; then one new record per payload, in order,
   * each filled by a `CREATE` transfer that does not skip unset fields.
   */
  function ObjectCreate(s: Schema, access: Option<Access>, blank: Record, data: CreateData): (r: Result<seq<Created>, Error>)
    ensures r.Failure? <==> data.Many? && !s.createMulti
    ensures r.Failure? ==> r.error == ValidationError("create_multi_disabled")
    ensures r.Success? && data.One? ==> |r.value| == 1 && r.value[0].transfer.payload == data.payload
    ensures r.Success? && data.Many? ==>
              |r.value| == |data.payloads| &&
              forall i :: 0 <= i < |r.value| ==> r.value[i].transfer.payload == data.payloads[i]
    ensures r.Success? ==> forall i :: 0 <= i < |r.value| ==> FreshlyCreated(s, access, blank, r.value[i])
  {
    var items := if data.One? then [data.payload] else data.payloads;
    if data.Many? && !s.createMulti then Failure(ValidationError("create_multi_disabled"))
    else
      var made := NewRecord(s, access, blank);
      assert forall p :: FreshlyCreated(s, access, blank, Created(made, Transfer(p, Create, false, access)));
      Success(seq(|items|, i requires 0 <= i < |items| => Created(made, Transfer(items[i], Create, false, access))))
  }

  /** A descriptor that can be constructed refuses every list body. */
  lemma ValidSchemaRefusesLists(s: Schema, access: Option<Access>, blank: Record, data: CreateData)
    requires ValidateSchema(s).Success?
    requires data.Many?
    ensures ObjectCreate(s, access, blank, data) == Failure(ValidationError("create_multi_disabled"))
  {
  }

  /** What a caller creates, as stamped before the transfer, that caller's filter finds. */
  lemma CreatedVisibleToCreator(s: Schema, a: Access, blank: Record, data: CreateData)
    requires ObjectCreate(s, Some(a), blank, data).Success?
    ensures ObjectsFilter(s, Some(a)).Success?
    ensures forall i :: 0 <= i < |ObjectCreate(s, Some(a), blank, data).value| ==>
              Matches(ObjectsFilter(s, Some(a)).value, ObjectCreate(s, Some(a), blank, data).value[i].record)
  {
  }

  /** On a tenant model, what one tenant creates, as stamped, no other tenant's filter finds. */
  lemma CreatedHiddenFromOthers(s: Schema, a: Access, b: Access, blank: Record, data: CreateData)
    requires s.model.hasTenantId
    requires a.tenantId != b.tenantId
    requires ObjectCreate(s, Some(a), blank, data).Success?
    ensures forall i :: 0 <= i < |ObjectCreate(s, Some(a), blank, data).value| ==>
              !Matches(ObjectsFilter(s, Some(b)).value, ObjectCreate(s, Some(a), blank, data).value[i].record)
  {
  }

  /**
   * On a tenant model, a record created without a caller keeps the default
   * `tenant_id` of the fresh instance, so exactly the tenant that default
   * names (none when it is unset) finds it.
   */
  lemma CreatedWithoutCallerKeepsDefault(s: Schema, blank: Record, data: CreateData)
    requires s.model.hasTenantId
    requires ObjectCreate(s, None, blank, data).Success?
    ensures forall i, b :: 0 <= i < |ObjectCreate(s, None, blank, data).value| ==>
              var rec := ObjectCreate(s, None, blank, data).value[i].record;
              rec.tenantId == blank.tenantId && (Matches(ObjectsFilter(s, Some(b)).value, rec) <==> blank.tenantId == Some(b.tenantId))
  {
  }

  // ---------------------------------------------------------------------------
  // Update
  // ---------------------------------------------------------------------------

  /** The transfer mode each update endpoint asks for. */
  function UpdateAction(u: UpdateEndpoint): (r: TransferAction)
    ensures r != Create
    ensures u.PatchUpdate? <==> r == NoSubobjects
    ensures u.PutUpdate? <==> r == Sync
  {
    match u
    case PatchUpdate => NoSubobjects
    case PutUpdate => Sync
  }

  /** `object_update`: unset fields are skipped exactly for a `NO_SUBOBJECTS` transfer. */
  function ObjectUpdate(access: Option<Access>, data: Payload, action: TransferAction): (t: Transfer)
    ensures t.excludeUnset <==> action == NoSubobjects
    ensures t.payload == data && t.action == action && t.access == access
  {
    Transfer(data, action, action == NoSubobjects, access)
  }

  /**
   * The transfer each update endpoint records: PATCH asks for
   * `NO_SUBOBJECTS` with unset fields excluded, PUT asks for `SYNC` with
   * every field included. What the transfer then does to the record is up
   * to `transfer_to_orm`, which is not part of this model.
   */
  lemma UpdateModes(access: Option<Access>, data: Payload, u: UpdateEndpoint)
    ensures ObjectUpdate(access, data, UpdateAction(u)).excludeUnset <==> u.PatchUpdate?
    ensures u.PatchUpdate? ==> ObjectUpdate(access, data, UpdateAction(u)).action == NoSubobjects
    ensures u.PutUpdate? ==> ObjectUpdate(access, data, UpdateAction(u)).action == Sync
  {
  }

  // ---------------------------------------------------------------------------
  // Delete
  // ---------------------------------------------------------------------------

  /** `object_delete`: a truthy `delete_status` is written to `status` and saved; otherwise the record is deleted. */
  function ObjectDelete(s: Schema, rec: Record): (r: DeleteOutcome)
    ensures r.Kept? <==> Truthy(s.deleteStatus)
    ensures r.Kept? ==> r.record.status == Some(s.deleteStatus)
    ensures r.Kept? ==> r.record.fields == rec.fields && r.record.tenantId == rec.tenantId
  {
    if Truthy(s.deleteStatus) then Kept(rec.(status := Some(s.deleteStatus))) else Removed
  }

  /** Soft-deleting a soft-deleted record changes nothing. */
  lemma SoftDeleteIdempotent(s: Schema, rec: Record)
    requires ObjectDelete(s, rec).Kept?
    ensures ObjectDelete(s, ObjectDelete(s, rec).record) == ObjectDelete(s, rec)
  {
  }

  /** A soft-deleted record stays exactly as visible as before: no filter excludes it. */
  lemma SoftDeleteStaysVisible(s: Schema, rec: Record, f: Filter)
    requires ObjectDelete(s, rec).Kept?
    ensures Matches(f, ObjectDelete(s, rec).record) <==> Matches(f, rec)
  {
  }

  /** A falsy `delete_status` (`None`, `False`, `0`, `''`) means a hard delete. */
  lemma FalsyStatusRemoves(s: Schema, rec: Record)
    requires s.deleteStatus == NoneValue || s.deleteStatus == BoolValue(false)
          || s.deleteStatus == IntValue(0) || s.deleteStatus == StrValue("")
    ensures ObjectDelete(s, rec) == Removed
  {
  }
}
