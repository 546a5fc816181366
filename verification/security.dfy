/** Security scope inheritance along the parent chain and the `access` parameter. */
module Security {
  import opened Results
  import opened Resources
  import opened Params

  /** `self.security_scopes and self.security_scopes.get(method)` is truthy. */
  predicate HasScopes(s: Schema, m: Method)
  {
    m in s.securityScopes && |s.securityScopes[m]| > 0
  }

  /**
   * `_get_security_scopes`: the scopes of the nearest resource on the chain
   * (itself first, then parent, grandparent, ...) that has a non-empty scope
   * list for this same method; `None` when no resource on the chain has one.
   */
  function GetSecurityScopes(s: Schema, m: Method): (r: Option<seq<string>>)
    ensures r.None? <==> forall k :: 0 <= k <= Depth(s) ==> !HasScopes(Ancestor(s, k), m)
    ensures r.Some? ==> exists k :: 0 <= k <= Depth(s)
                                    && HasScopes(Ancestor(s, k), m)
                                    && r.value == Ancestor(s, k).securityScopes[m]
                                    && forall j :: 0 <= j < k ==> !HasScopes(Ancestor(s, j), m)
  {
    if HasScopes(s, m) then
      assert Ancestor(s, 0) == s;
      Some(s.securityScopes[m])
    else if s.parent.Some? then
      var r := GetSecurityScopes(s.parent.value, m);
      if r.Some? then
        var k :| 0 <= k <= Depth(s.parent.value)
                 && HasScopes(Ancestor(s.parent.value, k), m)
                 && r.value == Ancestor(s.parent.value, k).securityScopes[m]
                 && forall j :: 0 <= j < k ==> !HasScopes(Ancestor(s.parent.value, j), m);
        InheritFound(s, m, k);
        r
      else
        InheritNone(s, m);
        r
    else
      assert Depth(s) == 0 && Ancestor(s, 0) == s;
      None
  }

  /** A resource without scopes inherits the parent chain's nearest scopes, one step further up. */
  lemma InheritFound(s: Schema, m: Method, k: nat)
    requires s.parent.Some? && !HasScopes(s, m)
    requires k <= Depth(s.parent.value)
    requires forall j :: 0 <= j < k ==> !HasScopes(Ancestor(s.parent.value, j), m)
    ensures k + 1 <= Depth(s) && Ancestor(s, k + 1) == Ancestor(s.parent.value, k)
    ensures forall j :: 0 <= j < k + 1 ==> !HasScopes(Ancestor(s, j), m)
  {
    AncestorOfParent(s, k);
    forall j | 0 <= j < k + 1 ensures !HasScopes(Ancestor(s, j), m) {
      if j > 0 { AncestorOfParent(s, j - 1); }
    }
  }

  /** A resource without scopes whose parent chain has none has none on its own chain either. */
  lemma InheritNone(s: Schema, m: Method)
    requires s.parent.Some? && !HasScopes(s, m)
    requires forall k :: 0 <= k <= Depth(s.parent.value) ==> !HasScopes(Ancestor(s.parent.value, k), m)
    ensures forall k :: 0 <= k <= Depth(s) ==> !HasScopes(Ancestor(s, k), m)
  {
    forall k | 0 <= k <= Depth(s) ensures !HasScopes(Ancestor(s, k), m) {
      if k > 0 { AncestorOfParent(s, k - 1); }
    }
  }

  /**
   * `_security_signature`: one `access` parameter carrying the resolved
   * scopes when a security scheme is configured (whether or not any scope
   * resolved), and no parameter otherwise.
   */
  function SecuritySignature(s: Schema, m: Method): (r: seq<Param>)
    ensures s.security <==> |r| == 1
    ensures !s.security <==> |r| == 0
    ensures forall i :: 0 <= i < |r| ==> r[i] == Param("access", AccessParam(GetSecurityScopes(s, m)))
  {
    if !s.security then [] else [Param("access", AccessParam(GetSecurityScopes(s, m)))]
  }
}
