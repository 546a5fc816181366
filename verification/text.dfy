/**
 * String helpers over `seq<char>`: ASCII case mapping (Python's `str.lower`
 * and `str.title` restricted to ASCII letters), `str.removeprefix`, and the
 * placeholder names of a URL path template such as `/a/{x}/b/{y}`.
 */
module Text {

  predicate IsUpper(c: char) { 'A' <= c <= 'Z' }

  predicate IsLower(c: char) { 'a' <= c <= 'z' }

  /** ASCII letters are the only cased characters of this model. */
  predicate IsCased(c: char) { IsUpper(c) || IsLower(c) }

  function LowerChar(c: char): char
  {
    if IsUpper(c) then (c as int - 'A' as int + 'a' as int) as char else c
  }

  function UpperChar(c: char): char
  {
    if IsLower(c) then (c as int - 'a' as int + 'A' as int) as char else c
  }

  /** `str.lower()` on ASCII: upper-case letters are mapped, all else is kept. */
  function Lower(s: string): (r: string)
    ensures |r| == |s|
    ensures forall i :: 0 <= i < |r| ==> !IsUpper(r[i])
    ensures forall i :: 0 <= i < |r| ==> (r[i] == s[i] || IsUpper(s[i]))
    ensures forall i :: 0 <= i < |r| ==> IsUpper(s[i]) ==> IsLower(r[i]) && UpperChar(r[i]) == s[i]
  {
    if |s| == 0 then [] else [LowerChar(s[0])] + Lower(s[1..])
  }

  /** Lower-casing works letter by letter, so it distributes over concatenation. */
  lemma {:induction false} LowerAppend(a: string, b: string)
    ensures Lower(a + b) == Lower(a) + Lower(b)
  {
    if |a| > 0 {
      assert (a + b)[1..] == a[1..] + b;
      LowerAppend(a[1..], b);
    } else {
      assert a + b == b;
    }
  }

  /**
   * `str.title()` on ASCII: a letter that follows a letter is lower-cased,
   * a letter that follows anything else (or starts the string) is upper-cased.
   */
  function Title(s: string): string
  {
    TitleAfter(s, false)
  }

  function TitleAfter(s: string, afterLetter: bool): string
  {
    if |s| == 0 then []
    else
      var c := if afterLetter then LowerChar(s[0]) else UpperChar(s[0]);
      [c] + TitleAfter(s[1..], IsCased(s[0]))
  }

  /** A word of lower-case letters keeps its letters after the first one. */
  lemma {:induction false} TitleAfterLetters(s: string)
    requires forall i :: 0 <= i < |s| ==> IsLower(s[i])
    ensures TitleAfter(s, true) == s
  {
    if |s| > 0 {
      TitleAfterLetters(s[1..]);
      assert TitleAfter(s, true) == [s[0]] + s[1..];
    }
  }

  /** `str.title()` of a lower-case word capitalises its first letter and nothing else. */
  lemma TitleOfWord(s: string)
    requires |s| > 0
    requires forall i :: 0 <= i < |s| ==> IsLower(s[i])
    ensures Title(s) == [UpperChar(s[0])] + s[1..]
    ensures IsUpper(Title(s)[0])
  {
    TitleAfterLetters(s[1..]);
  }

  /** `s.removeprefix(p)`. */
  function RemovePrefix(s: string, p: string): (r: string)
    ensures p <= s ==> p + r == s
    ensures !(p <= s) ==> r == s
  {
    if p <= s then s[|p|..] else s
  }

  /** Neither brace occurs in `s`, so it cannot open or close a placeholder. */
  predicate BraceFree(s: string)
  {
    forall i :: 0 <= i < |s| ==> s[i] != '{' && s[i] != '}'
  }

  lemma LowerBraceFree(s: string)
    requires BraceFree(s)
    ensures BraceFree(Lower(s))
  {
  }

  /** Index of the first `}` in `s` at or after `i`, or `|s|` when there is none. */
  function CloseAt(s: string, i: nat): (k: nat)
    requires i <= |s|
    ensures i <= k <= |s|
    ensures k < |s| ==> s[k] == '}'
    ensures forall j :: i <= j < k ==> s[j] != '}'
    decreases |s| - i
  {
    if i == |s| || s[i] == '}' then i else CloseAt(s, i + 1)
  }

  /**
   * The names written between `{` and `}` in a path template, left to right.
   * An opening brace that is never closed ends the scan.
   */
  function Placeholders(s: string): seq<string>
    decreases |s|
  {
    if |s| == 0 then []
    else if s[0] == '{' then
      var k := CloseAt(s, 1);
      if k < |s| then [s[1..k]] + Placeholders(s[k + 1..]) else []
    else Placeholders(s[1..])
  }

  /** A brace-free piece of a template contributes no placeholder. */
  lemma {:induction false} PlaceholdersSkipPlain(a: string, b: string)
    requires BraceFree(a)
    ensures Placeholders(a + b) == Placeholders(b)
    decreases |a|
  {
    if |a| > 0 {
      var s := a + b;
      assert s[0] == a[0] && a[0] != '{';
      assert s[1..] == a[1..] + b;
      assert BraceFree(a[1..]);
      PlaceholdersSkipPlain(a[1..], b);
      assert Placeholders(s) == Placeholders(s[1..]);
    } else {
      assert a + b == b;
    }
  }

  /** `{x}` with a brace-free name contributes exactly `x`. */
  lemma PlaceholdersToken(x: string, b: string)
    requires BraceFree(x)
    ensures Placeholders("{" + x + "}" + b) == [x] + Placeholders(b)
  {
    var s := "{" + x + "}" + b;
    CloseAtSkips(s, x, 1);
    assert s[1..|x| + 1] == x;
    assert s[|x| + 2..] == b;
  }

  lemma {:induction false} CloseAtSkips(s: string, x: string, i: nat)
    requires BraceFree(x)
    requires |s| >= |x| + 2
    requires s == "{" + x + "}" + s[|x| + 2..]
    requires 1 <= i <= |x| + 1
    ensures CloseAt(s, i) == |x| + 1
    decreases |x| + 1 - i
  {
    if i <= |x| {
      assert s[i] == x[i - 1];
      CloseAtSkips(s, x, i + 1);
    } else {
      assert s[i] == '}';
    }
  }
}
