/**
 * Django lookup paths: a field name followed by lookups (`price__gte`,
 * `created__date__year__lte`, `owner__address__city`), joined by the
 * separator `__`. Splitting a generated name at every `__` gives back its
 * parts whenever each part is a legal Django field or lookup name: non-empty,
 * free of `__` and not ending in `_` (Django's model checks refuse field
 * names that contain `__` or end with `_`).
 */
module Lookups {

  /** One part of a lookup path. */
  predicate IsSegment(w: string)
  {
    && |w| > 0
    && w[|w| - 1] != '_'
    && forall i :: 0 <= i < |w| - 1 ==> !(w[i] == '_' && w[i + 1] == '_')
  }

  predicate AllSegments(parts: seq<string>)
  {
    forall i :: 0 <= i < |parts| ==> IsSegment(parts[i])
  }

  /** `parts` joined with `__`. */
  function Join(parts: seq<string>): string
  {
    if |parts| == 0 then ""
    else if |parts| == 1 then parts[0]
    else parts[0] + "__" + Join(parts[1..])
  }

  /** True when a separator `__` starts at index `k` of `s`. */
  predicate SepAt(s: string, k: nat)
  {
    k + 1 < |s| && s[k] == '_' && s[k + 1] == '_'
  }

  /** Index of the first separator in `s` at or after `i`, or `|s|`. */
  function NextSep(s: string, i: nat): (k: nat)
    requires i <= |s|
    ensures i <= k <= |s|
    ensures k < |s| ==> SepAt(s, k)
    ensures forall j :: i <= j < k ==> !SepAt(s, j)
    decreases |s| - i
  {
    if i == |s| || SepAt(s, i) then i else NextSep(s, i + 1)
  }

  /** `s.split('__')`. */
  function Split(s: string): (r: seq<string>)
    ensures |r| > 0
    decreases |s|
  {
    var k := NextSep(s, 0);
    if k == |s| then [s] else [s[..k]] + Split(s[k + 2..])
  }

  /** A legal segment holds no separator, not even one that ends past its last character. */
  lemma NoSepInside(w: string, s: string)
    requires IsSegment(w)
    requires w <= s
    ensures forall j :: 0 <= j < |w| ==> !SepAt(s, j)
  {
    forall j | 0 <= j < |w|
      ensures !SepAt(s, j)
    {
      if j < |w| - 1 {
        assert s[j] == w[j] && s[j + 1] == w[j + 1];
      } else {
        assert s[j] == w[j];
      }
    }
  }

  lemma {:induction false} NextSepSkips(s: string, w: string, i: nat)
    requires IsSegment(w)
    requires w <= s
    requires i <= |w|
    ensures NextSep(s, i) == (if |w| < |s| && SepAt(s, |w|) then |w| else NextSep(s, |w|))
    decreases |w| - i
  {
    NoSepInside(w, s);
    if i < |w| {
      NextSepSkips(s, w, i + 1);
    }
  }

  /** Splitting a joined lookup path returns its parts. */
  lemma {:induction false} SplitJoin(parts: seq<string>)
    requires |parts| > 0
    requires AllSegments(parts)
    ensures Split(Join(parts)) == parts
    decreases |parts|
  {
    var w := parts[0];
    if |parts| == 1 {
      NextSepSkips(w, w, 0);
      assert NextSep(w, 0) == |w|;
    } else {
      SplitStep(w, Join(parts[1..]));
      SplitJoin(parts[1..]);
      assert parts == [w] + parts[1..];
    }
  }

  /** Splitting `w__rest` cuts off the segment `w` and splits the rest. */
  lemma SplitStep(w: string, rest: string)
    requires IsSegment(w)
    ensures Split(w + "__" + rest) == [w] + Split(rest)
  {
    var s := w + "__" + rest;
    assert w <= s;
    NextSepSkips(s, w, 0);
    assert SepAt(s, |w|);
    assert s[..|w|] == w;
    assert s[|w| + 2..] == rest;
  }

  /** Joining one more part in front adds the part and a separator. */
  lemma JoinCons(w: string, parts: seq<string>)
    requires |parts| > 0
    ensures Join([w] + parts) == w + "__" + Join(parts)
  {
    assert ([w] + parts)[1..] == parts;
  }

  /** Appending a part adds one separator and the part. */
  lemma {:induction false} JoinSnoc(parts: seq<string>, x: string)
    requires |parts| > 0
    ensures Join(parts + [x]) == Join(parts) + "__" + x
    decreases |parts|
  {
    if |parts| == 1 {
      assert parts + [x] == [parts[0], x];
      JoinPair(parts[0], x);
    } else {
      var p := parts[0];
      var rest := parts[1..];
      assert parts + [x] == [p] + (rest + [x]);
      assert parts == [p] + rest;
      JoinCons(p, rest + [x]);
      JoinSnoc(rest, x);
      JoinCons(p, rest);
      SepAssoc(p, Join(rest), x);
    }
  }

  /** Appending one more legal part to a joined path appends it to the split. */
  lemma SplitSnoc(parts: seq<string>, w: string)
    requires |parts| > 0 && AllSegments(parts)
    requires IsSegment(w)
    ensures Split(Join(parts) + "__" + w) == parts + [w]
  {
    JoinSnoc(parts, w);
    var ext := parts + [w];
    assert AllSegments(ext) by {
      forall i | 0 <= i < |ext| ensures IsSegment(ext[i]) {
        if i < |parts| { assert ext[i] == parts[i]; }
      }
    }
    SplitJoin(ext);
  }

  lemma SepAssoc(a: string, b: string, c: string)
    ensures a + "__" + (b + "__" + c) == a + "__" + b + "__" + c
  {
  }

  lemma JoinPair(a: string, b: string)
    ensures Join([a, b]) == a + "__" + b
  {
    assert [a, b][1..] == [b];
  }

  /** Joins of one, two and three parts. */
  lemma JoinSmall(a: string, b: string, c: string)
    ensures Join([a]) == a
    ensures Join([a, b]) == a + "__" + b
    ensures Join([a, b, c]) == a + "__" + b + "__" + c
  {
    JoinPair(a, b);
    JoinPair(b, c);
    assert [a, b, c] == [a] + [b, c];
    JoinCons(a, [b, c]);
    SepAssoc(a, b, c);
  }
}
