/**
 * `model_fields`: the names a resource can be ordered by. Reverse relations
 * give `<name>__count`, foreign keys are followed into the related model with
 * the prefix `<name>__` (skipping, at any depth, those that point at the
 * parent resource's model), and every other field gives its own name. The
 * names then become an enum whose members map each name to itself.
 */
module ModelFields {
  import opened Results
  import opened Resources

  /** The names contributed by fields `i..` of `m`, under `prefix`. */
  function NamesFrom(m: Model, parentModel: Option<Model>, prefix: string, i: nat): (r: seq<string>)
    requires i <= |m.fields|
    ensures forall n :: n in r ==> prefix <= n
    decreases m, |m.fields| - i
  {
    if i == |m.fields| then []
    else
      var f := m.fields[i];
      assert f in m.fields;
      FieldNames(m, f, parentModel, prefix) + NamesFrom(m, parentModel, prefix, i + 1)
  }

  /**
   * The names one field of `m` contributes: each starts with the prefix and
   * the field's name; a foreign key to the parent's model contributes none,
   * and a field that is not a foreign key exactly one.
   */
  function FieldNames(m: Model, f: Field, parentModel: Option<Model>, prefix: string): (r: seq<string>)
    requires f in m.fields
    ensures forall n :: n in r ==> prefix + f.name <= n
    ensures f.kind.ForeignKey? && parentModel == Some(f.kind.target) ==> r == []
    ensures !f.kind.ForeignKey? ==> |r| == 1
    decreases m, 0
  {
    match f.kind
    case ReverseRelation => [prefix + f.name + "__count"]
    case ForeignKey(target) =>
      if parentModel == Some(target) then []
      else
        var pre := prefix + f.name + "__";
        assert prefix + f.name <= pre;
        NamesFrom(target, parentModel, pre, 0)
    case _ => [prefix + f.name]
  }

  /** The ordered field names of a resource's model, before de-duplication. */
  function ModelFieldNames(s: Schema): seq<string>
  {
    NamesFrom(s.model, ParentModel(s), "", 0)
  }

  /** The name a chain ends with: `<name>__count` for a reverse relation, else the name. */
  function LeafName(f: Field): string
  {
    if f.kind.ReverseRelation? then f.name + "__count" else f.name
  }

  /** The prefix a sequence of followed foreign keys builds: `a__b__...__`. */
  function HopPrefix(hops: seq<Field>): string
  {
    if |hops| == 0 then "" else hops[0].name + "__" + HopPrefix(hops[1..])
  }

  /**
   * `leaf` is reached from `m` by following the foreign keys `hops` in turn,
   * none of which points at the parent's model, and `leaf` is not itself a
   * foreign key.
   */
  ghost predicate Reaches(m: Model, parentModel: Option<Model>, hops: seq<Field>, leaf: Field)
    decreases |hops|
  {
    if |hops| == 0 then leaf in m.fields && !leaf.kind.ForeignKey?
    else
      && hops[0] in m.fields
      && hops[0].kind.ForeignKey?
      && parentModel != Some(hops[0].kind.target)
      && Reaches(hops[0].kind.target, parentModel, hops[1..], leaf)
  }

  /** A name in the names of fields `i..` comes from one of those fields. */
  lemma {:induction false} Locate(m: Model, parentModel: Option<Model>, prefix: string, i: nat, n: string)
    returns (j: nat)
    requires i <= |m.fields|
    requires n in NamesFrom(m, parentModel, prefix, i)
    ensures i <= j < |m.fields|
    ensures n in FieldNames(m, m.fields[j], parentModel, prefix)
    decreases |m.fields| - i
  {
    if n in FieldNames(m, m.fields[i], parentModel, prefix) {
      j := i;
    } else {
      j := Locate(m, parentModel, prefix, i + 1, n);
    }
  }

  /** The names of field `j` are among the names of fields `i..` when `i <= j`. */
  lemma {:induction false} Include(m: Model, parentModel: Option<Model>, prefix: string, i: nat, j: nat, n: string)
    requires i <= j < |m.fields|
    requires n in FieldNames(m, m.fields[j], parentModel, prefix)
    ensures n in NamesFrom(m, parentModel, prefix, i)
    decreases j - i
  {
    if i < j {
      Include(m, parentModel, prefix, i + 1, j, n);
    }
  }

  /** Every name produced is spelled by a chain that `Reaches` a leaf. */
  lemma {:induction false} NamesSound(m: Model, parentModel: Option<Model>, prefix: string, n: string)
    returns (hops: seq<Field>, leaf: Field)
    requires n in NamesFrom(m, parentModel, prefix, 0)
    ensures Reaches(m, parentModel, hops, leaf)
    ensures n == prefix + HopPrefix(hops) + LeafName(leaf)
    decreases m
  {
    var j := Locate(m, parentModel, prefix, 0, n);
    var f := m.fields[j];
    if f.kind.ForeignKey? {
      var target := f.kind.target;
      var pre := prefix + f.name + "__";
      assert parentModel != Some(target);
      assert n in NamesFrom(target, parentModel, pre, 0);
      var hops', leaf' := NamesSound(target, parentModel, pre, n);
      hops, leaf := [f] + hops', leaf';
      FollowHop(m, parentModel, prefix, f, hops', leaf');
    } else {
      hops, leaf := [], f;
      if f.kind.ReverseRelation? {
        assert n == prefix + f.name + "__count";
      } else {
        assert n == prefix + f.name;
      }
    }
  }

  /** Prepending a followed foreign key to a chain of its target model. */
  lemma FollowHop(m: Model, parentModel: Option<Model>, prefix: string, f: Field, hops: seq<Field>, leaf: Field)
    requires f in m.fields && f.kind.ForeignKey? && parentModel != Some(f.kind.target)
    requires Reaches(f.kind.target, parentModel, hops, leaf)
    ensures Reaches(m, parentModel, [f] + hops, leaf)
    ensures prefix + f.name + "__" + HopPrefix(hops) + LeafName(leaf) == prefix + HopPrefix([f] + hops) + LeafName(leaf)
  {
    assert ([f] + hops)[1..] == hops;
    assert HopPrefix([f] + hops) == f.name + "__" + HopPrefix(hops);
  }

  /** Every chain that `Reaches` a leaf spells a name that is produced. */
  lemma {:induction false} NamesComplete(m: Model, parentModel: Option<Model>, prefix: string, hops: seq<Field>, leaf: Field)
    requires Reaches(m, parentModel, hops, leaf)
    ensures prefix + HopPrefix(hops) + LeafName(leaf) in NamesFrom(m, parentModel, prefix, 0)
    decreases m
  {
    var n := prefix + HopPrefix(hops) + LeafName(leaf);
    if |hops| == 0 {
      var j :| 0 <= j < |m.fields| && m.fields[j] == leaf;
      assert n == prefix + LeafName(leaf);
      if leaf.kind.ReverseRelation? {
        assert LeafName(leaf) == leaf.name + "__count";
        assert n == prefix + leaf.name + "__count";
        assert FieldNames(m, m.fields[j], parentModel, prefix) == [prefix + leaf.name + "__count"];
      } else {
        assert LeafName(leaf) == leaf.name;
        assert FieldNames(m, m.fields[j], parentModel, prefix) == [prefix + leaf.name];
      }
      Include(m, parentModel, prefix, 0, j, n);
    } else {
      var f := hops[0];
      var j :| 0 <= j < |m.fields| && m.fields[j] == f;
      var pre := prefix + f.name + "__";
      assert n == pre + HopPrefix(hops[1..]) + LeafName(leaf);
      NamesComplete(f.kind.target, parentModel, pre, hops[1..], leaf);
      assert n in FieldNames(m, m.fields[j], parentModel, prefix);
      Include(m, parentModel, prefix, 0, j, n);
    }
  }

  /**
   * The names `model_fields` produces are exactly the foreign-key chains that
   * avoid the parent's model, ending in a non-foreign-key field, spelled
   * `<prefix><hop>__...__<leaf>` (with `__count` for reverse relations).
   */
  lemma NamesAreChains(m: Model, parentModel: Option<Model>, prefix: string, n: string)
    ensures n in NamesFrom(m, parentModel, prefix, 0) <==>
              exists hops, leaf :: Reaches(m, parentModel, hops, leaf) && n == prefix + HopPrefix(hops) + LeafName(leaf)
  {
    if n in NamesFrom(m, parentModel, prefix, 0) {
      var hops, leaf := NamesSound(m, parentModel, prefix, n);
    }
    if exists hops, leaf :: Reaches(m, parentModel, hops, leaf) && n == prefix + HopPrefix(hops) + LeafName(leaf) {
      var hops, leaf :| Reaches(m, parentModel, hops, leaf) && n == prefix + HopPrefix(hops) + LeafName(leaf);
      NamesComplete(m, parentModel, prefix, hops, leaf);
    }
  }

  /** The index at which `x` first occurs in `xs`. */
  function FirstIndex(xs: seq<string>, x: string): (k: nat)
    requires x in xs
    ensures k < |xs| && xs[k] == x
    ensures forall j :: 0 <= j < k ==> xs[j] != x
  {
    if xs[0] == x then 0 else 1 + FirstIndex(xs[1..], x)
  }

  /** Appending to a list does not move the first occurrence of a name already in it. */
  lemma FirstIndexPrefix(p: seq<string>, q: seq<string>, x: string)
    requires x in p
    ensures FirstIndex(p + q, x) == FirstIndex(p, x)
  {
    var b := FirstIndex(p, x);
    assert (p + q)[b] == x;
    assert forall j :: 0 <= j < b ==> (p + q)[j] == p[j];
  }

  /**
   * The distinct names of `xs`, each once, ordered by where it first occurs
   * in `xs`, as the keys of a dict built from `xs` are.
   */
  function Dedup(xs: seq<string>): (r: seq<string>)
    ensures forall x :: x in r <==> x in xs
    ensures forall i, j :: 0 <= i < j < |r| ==> r[i] != r[j]
    ensures forall i, j :: 0 <= i < j < |r| ==> FirstIndex(xs, r[i]) < FirstIndex(xs, r[j])
  {
    if |xs| == 0 then []
    else
      var init := xs[..|xs| - 1];
      var rest := Dedup(init);
      var x := xs[|xs| - 1];
      assert xs == init + [x];
      assert forall y :: y in xs <==> y in init || y == x;
      forall y | y in rest
        ensures FirstIndex(xs, y) == FirstIndex(init, y)
      {
        FirstIndexPrefix(init, [x], y);
      }
      if x in rest then rest
      else
        assert FirstIndex(xs, x) == |xs| - 1;
        rest + [x]
  }

  /** A member of the generated `<Model>Fields` enum. */
  datatype EnumMember = EnumMember(name: string, value: string)

  /**
   * `Enum(..., {field: field for field in names})`: one member per distinct
   * name, in order of first occurrence, whose value is its own name.
   */
  function FieldsEnum(names: seq<string>): (r: seq<EnumMember>)
    ensures forall i :: 0 <= i < |r| ==> r[i].name == r[i].value
    ensures forall x :: x in names <==> exists i :: 0 <= i < |r| && r[i].name == x
    ensures forall i, j :: 0 <= i < j < |r| ==> r[i].name != r[j].name
    ensures forall i, j :: 0 <= i < j < |r| ==>
              r[i].name in names && r[j].name in names && FirstIndex(names, r[i].name) < FirstIndex(names, r[j].name)
  {
    var d := Dedup(names);
    var r := seq(|d|, i requires 0 <= i < |d| => EnumMember(d[i], d[i]));
    assert forall x :: x in d ==> exists i :: 0 <= i < |r| && r[i].name == x by {
      forall x | x in d ensures exists i :: 0 <= i < |r| && r[i].name == x {
        var i :| 0 <= i < |d| && d[i] == x;
        assert r[i].name == x;
      }
    }
    r
  }

  /**
   * `x` is spelled by a chain of foreign keys from the resource's model that
   * avoids the parent's model and ends in a field that is not a foreign key.
   */
  ghost predicate IsChain(s: Schema, x: string)
  {
    exists hops, leaf :: Reaches(s.model, ParentModel(s), hops, leaf) && x == HopPrefix(hops) + LeafName(leaf)
  }

  /**
   * The `model_fields` enum of a resource: its members are exactly the
   * chains `IsChain` describes.
   */
  function ModelFieldsEnum(s: Schema): (r: seq<EnumMember>)
    ensures forall i :: 0 <= i < |r| ==> IsChain(s, r[i].name)
    ensures forall x :: IsChain(s, x) ==> exists i :: 0 <= i < |r| && r[i].name == x
    ensures forall i :: 0 <= i < |r| ==> r[i].name == r[i].value
    ensures forall i, j :: 0 <= i < j < |r| ==> r[i].name != r[j].name
  {
    forall x ensures x in ModelFieldNames(s) <==> IsChain(s, x) {
      NamesAreChainsFromRoot(s, x);
    }
    FieldsEnum(ModelFieldNames(s))
  }

  /** The enum's names, collected from the empty prefix, are the chains of the resource. */
  lemma NamesAreChainsFromRoot(s: Schema, x: string)
    ensures x in ModelFieldNames(s) <==> IsChain(s, x)
  {
    var m, pm := s.model, ParentModel(s);
    NamesAreChains(m, pm, "", x);
    if x in ModelFieldNames(s) {
      var hops, leaf :| Reaches(m, pm, hops, leaf) && x == "" + HopPrefix(hops) + LeafName(leaf);
      ChainWitness(s, x, hops, leaf);
    }
    if IsChain(s, x) {
      var hops, leaf :| Reaches(m, pm, hops, leaf) && x == HopPrefix(hops) + LeafName(leaf);
      assert x == "" + HopPrefix(hops) + LeafName(leaf);
    }
  }

  lemma ChainWitness(s: Schema, x: string, hops: seq<Field>, leaf: Field)
    requires Reaches(s.model, ParentModel(s), hops, leaf)
    requires x == "" + HopPrefix(hops) + LeafName(leaf)
    ensures IsChain(s, x)
  {
    assert x == HopPrefix(hops) + LeafName(leaf);
  }

  /**
   * The choices of `order_by`, typed `List[model_fields]`: the enum's member
   * values in member order, which are exactly the chains of the resource,
   * each once.
   */
  function OrderChoices(s: Schema): (r: seq<string>)
    ensures |r| == |ModelFieldsEnum(s)|
    ensures forall i :: 0 <= i < |r| ==> r[i] == ModelFieldsEnum(s)[i].value
    ensures forall x :: x in r <==> IsChain(s, x)
    ensures forall i, j :: 0 <= i < j < |r| ==> r[i] != r[j]
  {
    var e := ModelFieldsEnum(s);
    var r := seq(|e|, i requires 0 <= i < |e| => e[i].value);
    OrderChoicesAreChains(s, r);
    r
  }

  lemma OrderChoicesAreChains(s: Schema, r: seq<string>)
    requires |r| == |ModelFieldsEnum(s)|
    requires forall i :: 0 <= i < |r| ==> r[i] == ModelFieldsEnum(s)[i].value
    ensures forall x :: x in r <==> IsChain(s, x)
    ensures forall i, j :: 0 <= i < j < |r| ==> r[i] != r[j]
  {
    var e := ModelFieldsEnum(s);
    forall x ensures x in r <==> IsChain(s, x) {
      if x in r {
        var i :| 0 <= i < |r| && r[i] == x;
        assert e[i].name == e[i].value;
      }
      if IsChain(s, x) {
        var i :| 0 <= i < |e| && e[i].name == x;
        assert r[i] == x;
      }
    }
  }
}
