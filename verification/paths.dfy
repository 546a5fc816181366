/** Identifier field names, their path placeholders and router prefixes. */
module Paths {
  import opened Results
  import opened Text
  import opened Resources

  /** `model.__name__.lower()`. */
  function NameSingular(m: Model): string
  {
    Lower(m.name)
  }

  /**
   * `id_field`: the lower-cased model name, with the parent's singular name
   * removed when (and only when) it is a prefix, followed by `_id`.
   */
  function IdField(s: Schema): (r: string)
    ensures |r| >= 3 && r[|r| - 3..] == "_id"
    ensures s.parent.Some? && NameSingular(s.parent.value.model) <= NameSingular(s.model) ==>
              NameSingular(s.parent.value.model) + r[..|r| - 3] == NameSingular(s.model)
    ensures !(s.parent.Some? && NameSingular(s.parent.value.model) <= NameSingular(s.model)) ==>
              r[..|r| - 3] == NameSingular(s.model)
  {
    var name := NameSingular(s.model);
    var stem := if s.parent.Some? then RemovePrefix(name, NameSingular(s.parent.value.model)) else name;
    assert (stem + "_id")[..|stem|] == stem;
    stem + "_id"
  }

  /** `id_field_placeholder`: a path segment whose only placeholder is the id field. */
  function IdFieldPlaceholder(s: Schema): (r: string)
    ensures BraceFree(s.model.name) ==> Placeholders(r) == [IdField(s)]
  {
    var r := "/{" + IdField(s) + "}";
    assert BraceFree(s.model.name) ==> Placeholders(r) == [IdField(s)] by {
      if BraceFree(s.model.name) {
        IdFieldBraceFree(s);
        PlaceholdersSkipPlain("/", "{" + IdField(s) + "}" + "");
        PlaceholdersToken(IdField(s), "");
        assert r == "/" + ("{" + IdField(s) + "}" + "");
      }
    }
    r
  }

  /**
   * The router's own prefix, `/<name>` after the parent's id placeholder:
   * its only placeholder is the parent's id field, and a root router has
   * none.
   */
  function RouterPrefix(s: Schema): (r: string)
    ensures ChainWellFormed(s) ==> Placeholders(r) == (if s.parent.Some? then [IdField(s.parent.value)] else [])
  {
    var r := (if s.parent.Some? then IdFieldPlaceholder(s.parent.value) else "") + "/" + s.name;
    assert ChainWellFormed(s) ==> Placeholders(r) == (if s.parent.Some? then [IdField(s.parent.value)] else []) by {
      if ChainWellFormed(s) {
        if s.parent.Some? {
          var p := s.parent.value;
          assert ChainWellFormed(p);
          IdFieldBraceFree(p);
          var x := IdField(p);
          LevelAssoc("", x, s.name, "");
          LevelPlaceholders(x, s.name, "");
          assert r == "" + ("/{" + x + "}") + "/" + s.name + "";
          assert r == "/" + ("{" + x + "}" + ("/" + s.name + ""));
          assert Placeholders("") == [];
        } else {
          PlaceholdersSkipPlain("/" + s.name, "");
          assert r == "/" + s.name + "";
        }
      }
    }
    r
  }

  /**
   * The path under which a resource's collection is reached from the root,
   * walking the parent chain: every ancestor's name and id placeholder, root
   * first, then this resource's name. The parent's path is a prefix of it.
   */
  function FullPrefix(s: Schema): (r: string)
    ensures s.parent.Some? ==> FullPrefix(s.parent.value) <= r
    ensures |r| > |s.name| && r[|r| - |s.name| - 1..] == "/" + s.name
  {
    (if s.parent.Some? then FullPrefix(s.parent.value) + IdFieldPlaceholder(s.parent.value) else "") + "/" + s.name
  }

  lemma LevelAssoc(a: string, x: string, name: string, tail: string)
    ensures a + ("/{" + x + "}") + "/" + name + tail == a + ("/" + ("{" + x + "}" + ("/" + name + tail)))
  {
    assert "/{" == "/" + "{";
  }

  /** One level of a prefix, `/{x}/name`, contributes the placeholder `x`. */
  lemma LevelPlaceholders(x: string, name: string, tail: string)
    requires BraceFree(x) && BraceFree(name)
    ensures Placeholders("/" + ("{" + x + "}" + ("/" + name + tail))) == [x] + Placeholders(tail)
  {
    PlaceholdersSkipPlain("/", "{" + x + "}" + ("/" + name + tail));
    PlaceholdersToken(x, "/" + name + tail);
    PlaceholdersSkipPlain("/" + name, tail);
  }

  /** Resource and model names along the parent chain hold no braces. */
  predicate ChainWellFormed(s: Schema)
  {
    && BraceFree(s.name)
    && BraceFree(s.model.name)
    && (s.parent.Some? ==> ChainWellFormed(s.parent.value))
  }

  lemma IdFieldBraceFree(s: Schema)
    requires BraceFree(s.model.name)
    ensures BraceFree(IdField(s))
  {
    LowerBraceFree(s.model.name);
  }
}
