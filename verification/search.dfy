/**
 * `search_filter_fields` and `search_filter`: the query parameters a list or
 * aggregate endpoint accepts for filtering, derived field by field from the
 * model, and the filter compiled from the values a request supplies.
 */
module Search {
  import opened Results
  import opened Resources
  import opened Params
  import opened Lookups

  const Comparisons: seq<string> := ["gte", "lte"]

  const DateParts: seq<string> := ["year", "quarter", "month", "day", "week", "week_day"]

  /** Date, date-time, integer and decimal fields get range parameters. */
  predicate IsRangeKind(k: FieldKind)
  {
    k.IntegerField? || k.DecimalField? || k.DateField? || k.DateTimeField?
  }

  predicate IsDateKind(k: FieldKind)
  {
    k.DateField? || k.DateTimeField?
  }

  /**
   * The fields that get no parameter: primary keys, `tenant_id`, reverse
   * relations and foreign keys to the parent resource's model.
   */
  predicate Skipped(s: Schema, f: Field)
  {
    || f.primaryKey
    || f.name == "tenant_id"
    || f.kind.ReverseRelation?
    || (f.kind.ForeignKey? && IsParentModel(s, f.kind.target))
  }

  /** The filtered name: `<name>__id` for a foreign key, else the field name. */
  function FilterName(f: Field): string
  {
    if f.kind.ForeignKey? then f.name + "__id" else f.name
  }

  /** The filtered type: `str` for a foreign key, else the declared annotation. */
  function FilterBaseType(f: Field): PyType
  {
    if f.kind.ForeignKey? then StrType else f.declared
  }

  /** A name and type a pair of `__gte`/`__lte` parameters is generated for. */
  datatype Variation = Variation(name: string, ty: PyType)

  /** The six date-part variations of a date-typed variation, all of type `int`. */
  function PartVariations(name: string): (r: seq<Variation>)
    ensures |r| == 6
    ensures forall k :: 0 <= k < 6 ==> r[k] == Variation(name + "__" + DateParts[k], IntType)
  {
    seq(6, k requires 0 <= k < 6 => Variation(name + "__" + DateParts[k], IntType))
  }

  /**
   * A date-part parameter name is the lookup path of the variation it
   * extends with one more lookup: splitting it at `__` gives the variation's
   * parts followed by the date part.
   */
  lemma PartVariationsSplit(parts: seq<string>, k: nat)
    requires |parts| > 0 && AllSegments(parts)
    requires k < 6
    ensures Split(PartVariations(Join(parts))[k].name) == parts + [DateParts[k]]
    ensures PartVariations(Join(parts))[k].ty == IntType
  {
    DatePartSegments();
    SplitSnoc(parts, DateParts[k]);
  }

  /** Every date part is a legal lookup name. */
  lemma DatePartSegments()
    ensures forall k :: 0 <= k < 6 ==> IsSegment(DateParts[k])
  {
    forall k | 0 <= k < 6 ensures IsSegment(DateParts[k]) {
      var w := DateParts[k];
      assert w[|w| - 1] != '_';
      assert forall i :: 0 <= i < |w| - 1 ==> !(w[i] == '_' && w[i + 1] == '_');
    }
  }

  /** The date-part variations of every date-typed variation of `vs`, in order. */
  function DatePartsOf(vs: seq<Variation>): seq<Variation>
  {
    if |vs| == 0 then []
    else (if vs[0].ty == DateType then PartVariations(vs[0].name) else []) + DatePartsOf(vs[1..])
  }

  /** The variations the field itself and (for a date-time) its `__date` start from. */
  function BaseVariations(f: Field): seq<Variation>
  {
    [Variation(FilterName(f), FilterBaseType(f))]
      + (if f.kind.DateTimeField? then [Variation(FilterName(f) + "__date", DateType)] else [])
  }

  function Variations(f: Field): seq<Variation>
  {
    var base := BaseVariations(f);
    if IsDateKind(f.kind) then base + DatePartsOf(base) else base
  }

  /** `__gte` then `__lte` for every variation, each optional and defaulting to `None`. */
  function RangeParams(vs: seq<Variation>): (r: seq<Param>)
    ensures |r| == 2 * |vs|
    ensures forall k :: 0 <= k < |r| ==> r[k] == Bound(vs[k / 2], k % 2)
  {
    if |vs| == 0 then []
    else
      var rest := RangeParams(vs[1..]);
      var r := [Bound(vs[0], 0), Bound(vs[0], 1)] + rest;
      forall k | 2 <= k < |r|
        ensures r[k] == Bound(vs[k / 2], k % 2)
      {
        PairIndex(k);
        assert r[k] == rest[k - 2];
        assert vs[1..][(k - 2) / 2] == vs[k / 2];
      }
      r
  }

  /** The `__gte` (`c == 0`) or `__lte` (`c == 1`) parameter of one variation. */
  function Bound(v: Variation, c: nat): Param
    requires c < 2
  {
    Param(v.name + "__" + Comparisons[c], FilterParam(OptionalOf(v.ty), None))
  }

  lemma PairIndex(k: int)
    requires k >= 2
    ensures (k - 2) / 2 == k / 2 - 1 && (k - 2) % 2 == k % 2
  {
  }

  /** The exact-match parameter, optionally limited in length. */
  function Exact(f: Field, maxLength: Option<nat>): Param
  {
    Param(FilterName(f), FilterParam(OptionalOf(FilterBaseType(f)), maxLength))
  }

  /** The parameters one field contributes; empty exactly for the skipped fields. */
  function FieldFilters(s: Schema, f: Field): (r: seq<Param>)
    ensures r == [] <==> Skipped(s, f)
  {
    if f.primaryKey || f.name == "tenant_id" then []
    else if f.kind.ForeignKey? && IsParentModel(s, f.kind.target) then []
    else if f.kind.ReverseRelation? then []
    else if IsRangeKind(f.kind) then [Exact(f, None)] + RangeParams(Variations(f))
    else if f.kind.CharField? then
      if f.kind.hasChoices then
        [Param(FilterName(f) + "__in", FilterParam(OptionalListOf(FilterBaseType(f)), None))]
      else
        [Exact(f, f.kind.maxLength),
         Param(FilterName(f) + "__icontains", FilterParam(OptionalOf(FilterBaseType(f)), f.kind.maxLength))]
    else [Exact(f, None)]
  }

  /** The parameter lists of a run of fields, one list per field. */
  function PerField(s: Schema, fs: seq<Field>): (r: seq<seq<Param>>)
    ensures |r| == |fs|
    ensures forall i :: 0 <= i < |fs| ==> r[i] == FieldFilters(s, fs[i])
  {
    seq(|fs|, i requires 0 <= i < |fs| => FieldFilters(s, fs[i]))
  }

  /** The parameters of a run of fields, field by field in model order. */
  function FiltersOf(s: Schema, fs: seq<Field>): seq<Param>
  {
    Flatten(PerField(s, fs))
  }

  /** The lists of `xss` one after the other. */
  function Flatten<T>(xss: seq<seq<T>>): seq<T>
  {
    if |xss| == 0 then [] else xss[0] + Flatten(xss[1..])
  }

  lemma {:induction false} FlattenAppend<T>(a: seq<seq<T>>, b: seq<seq<T>>)
    ensures Flatten(a + b) == Flatten(a) + Flatten(b)
    decreases |a|
  {
    if |a| == 0 {
      assert a + b == b;
    } else {
      assert (a + b)[0] == a[0];
      assert (a + b)[1..] == a[1..] + b;
      FlattenAppend(a[1..], b);
    }
  }

  /** Every element of a flattened list sits in one of the lists. */
  lemma {:induction false} FlattenOwner<T>(xss: seq<seq<T>>, k: nat) returns (i: nat, j: nat)
    requires k < |Flatten(xss)|
    ensures i < |xss| && j < |xss[i]|
    ensures Flatten(xss)[k] == xss[i][j]
    decreases |xss|
  {
    if k < |xss[0]| {
      i, j := 0, k;
    } else {
      var i', j' := FlattenOwner(xss[1..], k - |xss[0]|);
      i, j := i' + 1, j';
    }
  }

  /** `p` is one of the parameters of an unskipped field of `fs`. */
  ghost predicate OwnedBy(s: Schema, fs: seq<Field>, p: Param)
  {
    exists i :: 0 <= i < |fs| && !Skipped(s, fs[i]) && p in FieldFilters(s, fs[i])
  }

  /**
   * `search_filter_fields`: every parameter is one of the parameters of an
   * unskipped field of the model.
   */
  function SearchFilterFields(s: Schema): (r: seq<Param>)
    ensures forall k :: 0 <= k < |r| ==> OwnedBy(s, s.model.fields, r[k])
  {
    FiltersOwned(s, s.model.fields);
    FiltersOf(s, s.model.fields)
  }

  lemma FiltersOwned(s: Schema, fs: seq<Field>)
    ensures forall k :: 0 <= k < |FiltersOf(s, fs)| ==> OwnedBy(s, fs, FiltersOf(s, fs)[k])
  {
    forall k | 0 <= k < |FiltersOf(s, fs)|
      ensures OwnedBy(s, fs, FiltersOf(s, fs)[k])
    {
      var i, j := FilterOwner(s, fs, k);
      var ps := FieldFilters(s, fs[i]);
      assert ps[j] in ps;
    }
  }

  /** Fields appear in model order: the parameters of `a + b` are those of `a`, then those of `b`. */
  lemma FiltersInModelOrder(s: Schema, a: seq<Field>, b: seq<Field>)
    ensures FiltersOf(s, a + b) == FiltersOf(s, a) + FiltersOf(s, b)
  {
    assert PerField(s, a + b) == PerField(s, a) + PerField(s, b);
    FlattenAppend(PerField(s, a), PerField(s, b));
  }

  /** A parameter of the search signature belongs to one field of the model. */
  lemma FilterOwner(s: Schema, fs: seq<Field>, k: nat) returns (i: nat, j: nat)
    requires k < |FiltersOf(s, fs)|
    ensures i < |fs| && j < |FieldFilters(s, fs[i])|
    ensures FiltersOf(s, fs)[k] == FieldFilters(s, fs[i])[j]
  {
    i, j := FlattenOwner(PerField(s, fs), k);
  }

  /**
   * How many parameters each kind of field contributes: a plain field, a
   * foreign key or a choice field one, a free-text field two, an integer or
   * decimal field three; a date field 15 when annotated `date` (7 variations)
   * and 3 otherwise; a date-time field 29 when annotated `date` and 17
   * otherwise (its `__date` variation always gets the six date parts).
   */
  lemma FieldFilterCount(s: Schema, f: Field)
    requires !Skipped(s, f)
    ensures |FieldFilters(s, f)| ==
      match f.kind
      case IntegerField => 3
      case DecimalField => 3
      case DateField => if f.declared == DateType then 15 else 3
      case DateTimeField => if f.declared == DateType then 29 else 17
      case CharField(choices, _) => if choices then 1 else 2
      case _ => 1
  {
    var base := BaseVariations(f);
    if f.kind.DateField? {
      assert |base| == 1;
      assert base[1..] == [];
      assert |DatePartsOf(base)| == if f.declared == DateType then 6 else 0;
    } else if f.kind.DateTimeField? {
      assert |base| == 2 && base[1].ty == DateType;
      assert base[1..][1..] == [];
      assert |DatePartsOf(base[1..])| == 6;
      assert |DatePartsOf(base)| == if f.declared == DateType then 12 else 6;
    }
  }

  /**
   * The exact-match parameter comes first, named by the field (`<name>__id`
   * for a foreign key) and typed `Optional[<annotation>]` (`Optional[str]`
   * for a foreign key); a free-text field limits it, like its `__icontains`
   * parameter that follows it (typed `Optional[<annotation>]`), to the
   * field's `max_length`. A choice field has no exact parameter, only
   * `<name>__in`.
   */
  lemma ExactFirst(s: Schema, f: Field)
    requires !Skipped(s, f)
    ensures !(f.kind.CharField? && f.kind.hasChoices) ==>
              FieldFilters(s, f)[0] == Param(FilterName(f), FilterParam(OptionalOf(FilterBaseType(f)),
                                              if f.kind.CharField? then f.kind.maxLength else None))
    ensures f.kind.CharField? && f.kind.hasChoices ==>
              FieldFilters(s, f) == [Param(f.name + "__in", FilterParam(OptionalListOf(f.declared), None))]
    ensures f.kind.CharField? && !f.kind.hasChoices ==>
              |FieldFilters(s, f)| == 2 &&
              FieldFilters(s, f)[1] == Param(f.name + "__icontains", FilterParam(OptionalOf(f.declared), f.kind.maxLength))
  {
  }

  /** A lookup chain applied to a range field, before its final comparison. */
  ghost predicate RangeBase(f: Field, b: seq<string>)
  {
    || b == []
    || (f.kind.DateTimeField? && b == ["date"])
    || (IsDateKind(f.kind) && f.declared == DateType && |b| == 1 && b[0] in DateParts)
    || (f.kind.DateTimeField? && |b| == 2 && b[0] == "date" && b[1] in DateParts)
  }

  /** The type a range chain compares: the annotation, `date` for `__date`, `int` for a date part. */
  function RangeBaseType(f: Field, b: seq<string>): PyType
  {
    if b == [] then f.declared else if b == ["date"] then DateType else IntType
  }

  /**
   * The lookups Django is asked to apply for one field's parameter, as a
   * reference independent of how the parameters are generated.
   */
  ghost predicate ValidChain(f: Field, lookups: seq<string>)
  {
    match f.kind
    case ForeignKey(_) => lookups == ["id"]
    case CharField(choices, _) => if choices then lookups == ["in"] else lookups == [] || lookups == ["icontains"]
    case ReverseRelation => false
    case PlainField => lookups == []
    case _ =>
      || lookups == []
      || (|lookups| > 0 && lookups[|lookups| - 1] in Comparisons && RangeBase(f, lookups[..|lookups| - 1]))
  }

  /** `<name>__date__<part>`, built as the `__date` variation's part. */
  lemma JoinDatePart(name: string, p: string)
    ensures Join([name, "date", p]) == name + "__date" + "__" + p
  {
    JoinSmall(name, "date", p);
    assert "__" + "date" == "__date";
    assert name + "__" + "date" == name + ("__" + "date");
  }

  lemma DatePartsOfOne(v: Variation)
    ensures DatePartsOf([v]) == if v.ty == DateType then PartVariations(v.name) else []
  {
    assert [v][1..] == [];
  }

  lemma DatePartsOfTwo(v: Variation, w: Variation)
    ensures DatePartsOf([v, w]) == (if v.ty == DateType then PartVariations(v.name) else []) + DatePartsOf([w])
  {
    assert [v, w][1..] == [w];
  }

  /** The variations of a range field, by index. */
  lemma VariationAt(f: Field, i: nat)
    requires IsRangeKind(f.kind)
    ensures |Variations(f)| ==
              1 + (if f.kind.DateTimeField? then 1 else 0)
                + (if IsDateKind(f.kind) && f.declared == DateType then 6 else 0)
                + (if f.kind.DateTimeField? then 6 else 0)
    ensures i < |Variations(f)| ==>
              var nb := if f.kind.DateTimeField? then 2 else 1;
              var off := if f.declared == DateType then 6 else 0;
              Variations(f)[i] ==
                if i == 0 then Variation(f.name, f.declared)
                else if i < nb then Variation(f.name + "__date", DateType)
                else if i < nb + off then Variation(f.name + "__" + DateParts[i - nb], IntType)
                else Variation(f.name + "__date" + "__" + DateParts[i - nb - off], IntType)
  {
    var v0 := Variation(f.name, f.declared);
    assert FilterName(f) == f.name && FilterBaseType(f) == f.declared;
    if f.kind.DateTimeField? {
      var v1 := Variation(f.name + "__date", DateType);
      assert BaseVariations(f) == [v0, v1];
      DatePartsOfTwo(v0, v1);
      DatePartsOfOne(v1);
    } else {
      assert BaseVariations(f) == [v0];
      DatePartsOfOne(v0);
    }
  }

  /** Each variation is the field name joined with a range chain, typed by that chain. */
  lemma VariationChain(f: Field, i: nat) returns (b: seq<string>)
    requires IsRangeKind(f.kind)
    requires i < |Variations(f)|
    ensures RangeBase(f, b)
    ensures Variations(f)[i] == Variation(Join([f.name] + b), RangeBaseType(f, b))
  {
    VariationAt(f, i);
    var nb := if f.kind.DateTimeField? then 2 else 1;
    var off := if IsDateKind(f.kind) && f.declared == DateType then 6 else 0;
    if i == 0 {
      b := [];
      JoinSmall(f.name, "", "");
    } else if i < nb {
      b := ["date"];
      JoinSmall(f.name, "date", "");
      assert [f.name] + b == [f.name, "date"];
    } else if i < nb + off {
      b := DatePartChain(f, i - nb, false);
    } else {
      assert f.kind.DateTimeField? && i - nb - off < 6;
      b := DatePartChain(f, i - nb - off, true);
    }
  }

  /** A date part of the field (or of its `__date`), with its chain. */
  lemma DatePartChain(f: Field, k: nat, onDate: bool) returns (b: seq<string>)
    requires k < 6
    requires IsDateKind(f.kind)
    requires onDate ==> f.kind.DateTimeField?
    requires !onDate ==> f.declared == DateType
    ensures RangeBase(f, b) && RangeBaseType(f, b) == IntType
    ensures Join([f.name] + b) == if onDate then f.name + "__date" + "__" + DateParts[k] else f.name + "__" + DateParts[k]
  {
    var p := DateParts[k];
    assert p != "date";
    if onDate {
      b := ["date", p];
      JoinDatePart(f.name, p);
      assert [f.name] + b == [f.name, "date", p];
    } else {
      b := [p];
      JoinSmall(f.name, p, "");
      assert [f.name] + b == [f.name, p];
    }
  }

  /** Each range chain names some variation. */
  lemma VariationIndex(f: Field, b: seq<string>) returns (i: nat)
    requires IsRangeKind(f.kind)
    requires RangeBase(f, b)
    ensures i < |Variations(f)|
    ensures Variations(f)[i] == Variation(Join([f.name] + b), RangeBaseType(f, b))
  {
    if b == [] {
      i := 0;
      VariationAt(f, i);
      JoinSmall(f.name, "", "");
    } else if b == ["date"] {
      i := 1;
      VariationAt(f, i);
      JoinSmall(f.name, "date", "");
      assert [f.name] + b == [f.name, "date"];
    } else if |b| == 1 {
      i := PartIndex(f, b[0]);
      assert b == [b[0]];
    } else {
      i := DatePartIndex(f, b[1]);
      assert b == ["date", b[1]];
    }
  }

  lemma PartIndex(f: Field, p: string) returns (i: nat)
    requires IsDateKind(f.kind) && f.declared == DateType && p in DateParts
    ensures i < |Variations(f)|
    ensures Variations(f)[i] == Variation(Join([f.name] + [p]), IntType)
  {
    var k :| 0 <= k < 6 && DateParts[k] == p;
    i := (if f.kind.DateTimeField? then 2 else 1) + k;
    VariationAt(f, i);
    JoinSmall(f.name, p, "");
    assert [f.name] + [p] == [f.name, p];
  }

  lemma DatePartIndex(f: Field, p: string) returns (i: nat)
    requires f.kind.DateTimeField? && p in DateParts
    ensures i < |Variations(f)|
    ensures Variations(f)[i] == Variation(Join([f.name] + ["date", p]), IntType)
  {
    var k :| 0 <= k < 6 && DateParts[k] == p;
    i := 2 + (if f.declared == DateType then 6 else 0) + k;
    VariationAt(f, i);
    JoinDatePart(f.name, p);
    assert [f.name] + ["date", p] == [f.name, "date", p];
  }

  /** The parameters of a range field: exact match, then `__gte`/`__lte` per variation. */
  lemma RangeFilterAt(s: Schema, f: Field, k: nat)
    requires !Skipped(s, f) && IsRangeKind(f.kind)
    ensures |FieldFilters(s, f)| == 1 + 2 * |Variations(f)|
    ensures 1 <= k < |FieldFilters(s, f)| ==>
              FieldFilters(s, f)[k].name == Variations(f)[(k - 1) / 2].name + "__" + Comparisons[(k - 1) % 2]
  {
    var vs := Variations(f);
    assert FieldFilters(s, f) == [Exact(f, None)] + RangeParams(vs);
    if 1 <= k < |FieldFilters(s, f)| {
      assert FieldFilters(s, f)[k] == RangeParams(vs)[k - 1];
      assert RangeParams(vs)[k - 1] == Bound(vs[(k - 1) / 2], (k - 1) % 2);
    }
  }

  /**
   * Every parameter a field contributes is named `<field>__<lookup>__...`
   * with a lookup chain from `ValidChain`.
   */
  lemma ParamChain(s: Schema, f: Field, k: nat) returns (lookups: seq<string>)
    requires k < |FieldFilters(s, f)|
    ensures ValidChain(f, lookups)
    ensures FieldFilters(s, f)[k].name == Join([f.name] + lookups)
  {
    if f.kind.ForeignKey? {
      lookups := ["id"];
      JoinSmall(f.name, "id", "");
      assert [f.name] + lookups == [f.name, "id"];
    } else if IsRangeKind(f.kind) {
      if k == 0 {
        RangeFilterAt(s, f, k);
        lookups := [];
        JoinSmall(f.name, "", "");
      } else {
        lookups := RangeParamChain(s, f, k);
      }
    } else if f.kind.CharField? {
      lookups := CharParamChain(s, f, k);
    } else {
      lookups := [];
      JoinSmall(f.name, "", "");
    }
  }

  lemma CharParamChain(s: Schema, f: Field, k: nat) returns (lookups: seq<string>)
    requires f.kind.CharField? && k < |FieldFilters(s, f)|
    ensures ValidChain(f, lookups)
    ensures FieldFilters(s, f)[k].name == Join([f.name] + lookups)
  {
    if f.kind.hasChoices {
      lookups := ["in"];
      JoinSmall(f.name, "in", "");
      assert [f.name] + lookups == [f.name, "in"];
    } else if k == 0 {
      lookups := [];
      JoinSmall(f.name, "", "");
    } else {
      lookups := ["icontains"];
      JoinSmall(f.name, "icontains", "");
      assert [f.name] + lookups == [f.name, "icontains"];
    }
  }

  /** A variation's lookups followed by `gte` or `lte` is a chain of a range field. */
  lemma RangeChainValid(f: Field, b: seq<string>, c: string)
    requires IsRangeKind(f.kind) && RangeBase(f, b) && c in Comparisons
    ensures ValidChain(f, b + [c])
  {
    assert (b + [c])[..|b + [c]| - 1] == b;
  }

  lemma RangeParamChain(s: Schema, f: Field, k: nat) returns (lookups: seq<string>)
    requires IsRangeKind(f.kind) && !Skipped(s, f)
    requires 1 <= k < |FieldFilters(s, f)|
    ensures ValidChain(f, lookups)
    ensures FieldFilters(s, f)[k].name == Join([f.name] + lookups)
  {
    RangeFilterAt(s, f, k);
    var i := (k - 1) / 2;
    var c := Comparisons[(k - 1) % 2];
    var b := VariationChain(f, i);
    lookups := b + [c];
    RangeChainValid(f, b, c);
    assert [f.name] + lookups == ([f.name] + b) + [c];
    JoinSnoc([f.name] + b, c);
  }

  /** Every lookup chain `ValidChain` admits is the name of a parameter of the field. */
  lemma ChainParam(s: Schema, f: Field, lookups: seq<string>) returns (k: nat)
    requires !Skipped(s, f)
    requires ValidChain(f, lookups)
    ensures k < |FieldFilters(s, f)|
    ensures FieldFilters(s, f)[k].name == Join([f.name] + lookups)
  {
    if IsRangeKind(f.kind) && lookups != [] {
      var b := lookups[..|lookups| - 1];
      var c := lookups[|lookups| - 1];
      assert lookups == b + [c];
      k := RangeChainParam(s, f, b, c);
    } else {
      k := ParamIndexSimple(s, f, lookups);
    }
  }

  lemma RangeChainParam(s: Schema, f: Field, b: seq<string>, c: string) returns (k: nat)
    requires !Skipped(s, f) && IsRangeKind(f.kind)
    requires RangeBase(f, b) && c in Comparisons
    ensures k < |FieldFilters(s, f)|
    ensures FieldFilters(s, f)[k].name == Join([f.name] + (b + [c]))
  {
    var i := VariationIndex(f, b);
    var ci := if c == "gte" then 0 else 1;
    k := 1 + 2 * i + ci;
    RangeFilterAt(s, f, k);
    assert (k - 1) / 2 == i && (k - 1) % 2 == ci;
    assert [f.name] + (b + [c]) == ([f.name] + b) + [c];
    JoinSnoc([f.name] + b, c);
  }

  lemma ParamIndexSimple(s: Schema, f: Field, lookups: seq<string>) returns (k: nat)
    requires !Skipped(s, f)
    requires ValidChain(f, lookups)
    requires !(IsRangeKind(f.kind) && lookups != [])
    ensures k < |FieldFilters(s, f)|
    ensures FieldFilters(s, f)[k].name == Join([f.name] + lookups)
  {
    if lookups == [] {
      k := 0;
      JoinSmall(f.name, "", "");
      if IsRangeKind(f.kind) { RangeFilterAt(s, f, 0); }
    } else {
      var w := lookups[0];
      assert lookups == [w];
      JoinSmall(f.name, w, "");
      assert [f.name] + lookups == [f.name, w];
      k := if f.kind.CharField? && !f.kind.hasChoices then 1 else 0;
    }
  }

  /**
   * The search parameters a field contributes are exactly the names
   * `Join([name] + lookups)` over the lookup chains `ValidChain` admits.
   */
  lemma FieldFilterNames(s: Schema, f: Field, n: string)
    requires !Skipped(s, f)
    ensures n in Names(FieldFilters(s, f)) <==> exists lookups :: ValidChain(f, lookups) && n == Join([f.name] + lookups)
  {
    var r := FieldFilters(s, f);
    if n in Names(r) {
      var k :| 0 <= k < |r| && Names(r)[k] == n;
      var lookups := ParamChain(s, f, k);
    }
    if exists lookups :: ValidChain(f, lookups) && n == Join([f.name] + lookups) {
      var lookups :| ValidChain(f, lookups) && n == Join([f.name] + lookups);
      var k := ChainParam(s, f, lookups);
      assert Names(r)[k] == n;
    }
  }

  predicate ChainSegments(lookups: seq<string>)
  {
    forall i :: 0 <= i < |lookups| ==> IsSegment(lookups[i])
  }

  lemma ValidChainSegments(f: Field, lookups: seq<string>)
    requires ValidChain(f, lookups)
    ensures ChainSegments(lookups)
  {
    forall i | 0 <= i < |lookups| ensures IsSegment(lookups[i]) {
      var w := lookups[i];
      assert w in ["id", "in", "icontains", "date", "gte", "lte"] || w in DateParts;
    }
  }

  /**
   * When the model's field names are legal Django names, every search
   * parameter splits at `__` into the name of an unskipped model field and a
   * lookup chain valid for that field: the filter Django builds from it
   * targets the field it was generated for.
   */
  lemma SearchParamsParse(s: Schema, k: nat) returns (f: Field, lookups: seq<string>)
    requires forall g :: g in s.model.fields ==> IsSegment(g.name)
    requires k < |SearchFilterFields(s)|
    ensures f in s.model.fields && !Skipped(s, f)
    ensures ValidChain(f, lookups)
    ensures Split(SearchFilterFields(s)[k].name) == [f.name] + lookups
  {
    var i, j := FilterOwner(s, s.model.fields, k);
    f := s.model.fields[i];
    lookups := ParamChain(s, f, j);
    ValidChainSegments(f, lookups);
    assert AllSegments([f.name] + lookups);
    SplitJoin([f.name] + lookups);
  }

  /** `search_filter`: the lookups given a value other than `None`, with those values. */
  function SearchFilter(kwargs: map<string, Value>): (q: map<string, Value>)
    ensures forall k :: k in q <==> k in kwargs && kwargs[k] != NoneValue
    ensures forall k :: k in q ==> q[k] == kwargs[k]
  {
    map k | k in kwargs && kwargs[k] != NoneValue :: kwargs[k]
  }

  /** Compiling an already compiled filter changes nothing. */
  lemma SearchFilterIdempotent(kwargs: map<string, Value>)
    ensures SearchFilter(SearchFilter(kwargs)) == SearchFilter(kwargs)
  {
  }
}
