/**
 * The `kebab-case` spelling that strum derives for enum variants
 * (`#[strum(serialize_all = "kebab-case")]`), with its inverse.
 */
module Casing {

  predicate IsUpper(c: char) {
    'A' <= c <= 'Z'
  }

  predicate IsLower(c: char) {
    'a' <= c <= 'z'
  }

  function Lower(c: char): (r: char)
    ensures IsUpper(c) ==> IsLower(r)
    ensures !IsUpper(c) ==> r == c
  {
    if IsUpper(c) then (c as int + 32) as char else c
  }

  function Upper(c: char): (r: char)
    ensures IsLower(c) ==> IsUpper(r)
    ensures !IsLower(c) ==> r == c
  {
    if IsLower(c) then (c as int - 32) as char else c
  }

  predicate AllLetters(s: string) {
    forall ch :: ch in s ==> IsUpper(ch) || IsLower(ch)
  }

  /**
   * A variant name: ASCII letters with a capital first. On the variants
   * here, which never put two capitals side by side, strum's word
   * splitting is exactly a break before every capital.
   */
  predicate IsVariantName(s: string) {
    |s| > 0 && IsUpper(s[0]) && AllLetters(s)
  }

  /** Lower-case words joined by single hyphens. */
  predicate IsKebab(s: string) {
    && |s| > 0
    && IsLower(s[0])
    && (forall i :: 0 <= i < |s| ==> IsLower(s[i]) || s[i] == '-')
    && (forall i :: 0 <= i < |s| && s[i] == '-' ==> i + 1 < |s| && IsLower(s[i + 1]))
  }

  /** Every capital after the first starts a new word: a hyphen, then the letter in lower case. */
  function KebabTail(s: string): (r: string)
    ensures |r| >= |s|
  {
    if s == [] then []
    else (if IsUpper(s[0]) then ['-', Lower(s[0])] else [s[0]]) + KebabTail(s[1..])
  }

  function KebabCase(name: string): string {
    if name == [] then [] else [Lower(name[0])] + KebabTail(name[1..])
  }

  /** Drops each hyphen and capitalises the letter after it. */
  function CamelTail(s: string): string
    decreases |s|
  {
    if s == [] then []
    else if s[0] == '-' && |s| >= 2 then [Upper(s[1])] + CamelTail(s[2..])
    else [s[0]] + CamelTail(s[1..])
  }

  /** From kebab case back to a variant name. */
  function CamelCase(s: string): string {
    if s == [] then [] else [Upper(s[0])] + CamelTail(s[1..])
  }

  lemma {:induction false} KebabTailRoundTrip(s: string)
    requires AllLetters(s)
    ensures CamelTail(KebabTail(s)) == s
  {
    if s != [] {
      assert AllLetters(s[1..]) by {
        assert forall ch :: ch in s[1..] ==> ch in s;
      }
      KebabTailRoundTrip(s[1..]);
      var rest := KebabTail(s[1..]);
      if IsUpper(s[0]) {
        assert KebabTail(s) == ['-', Lower(s[0])] + rest;
        assert (['-', Lower(s[0])] + rest)[2..] == rest;
      } else {
        assert KebabTail(s) == [s[0]] + rest;
        assert ([s[0]] + rest)[1..] == rest;
      }
    }
  }

  /** Reading the kebab spelling back gives the variant name. */
  lemma KebabRoundTrip(name: string)
    requires IsVariantName(name)
    ensures CamelCase(KebabCase(name)) == name
  {
    assert AllLetters(name[1..]) by {
      assert forall ch :: ch in name[1..] ==> ch in name;
    }
    KebabTailRoundTrip(name[1..]);
    assert ([Lower(name[0])] + KebabTail(name[1..]))[1..] == KebabTail(name[1..]);
  }

  /** Two variant names never share a kebab spelling. */
  lemma KebabInjective(a: string, b: string)
    requires IsVariantName(a) && IsVariantName(b)
    requires KebabCase(a) == KebabCase(b)
    ensures a == b
  {
    KebabRoundTrip(a);
    KebabRoundTrip(b);
  }

  /** The tail is lower-case letters and hyphens, each hyphen followed by a letter. */
  lemma {:induction false} KebabTailShape(s: string)
    requires AllLetters(s)
    ensures var r := KebabTail(s);
      && (forall i :: 0 <= i < |r| ==> IsLower(r[i]) || r[i] == '-')
      && (forall i :: 0 <= i < |r| && r[i] == '-' ==> i + 1 < |r| && IsLower(r[i + 1]))
      && (s != [] ==> |r| > 0 && r[|r| - 1] != '-')
  {
    if s != [] {
      assert AllLetters(s[1..]) by {
        assert forall ch :: ch in s[1..] ==> ch in s;
      }
      KebabTailShape(s[1..]);
      var head := if IsUpper(s[0]) then ['-', Lower(s[0])] else [s[0]];
      var rest := KebabTail(s[1..]);
      var r := head + rest;
      assert KebabTail(s) == r;
      assert forall i :: |head| <= i < |r| ==> r[i] == rest[i - |head|];
    }
  }

  /** strum's spelling of a variant name is kebab case. */
  lemma KebabCaseIsKebab(name: string)
    requires IsVariantName(name)
    ensures IsKebab(KebabCase(name))
  {
    assert AllLetters(name[1..]) by {
      assert forall ch :: ch in name[1..] ==> ch in name;
    }
    KebabTailShape(name[1..]);
    var rest := KebabTail(name[1..]);
    var r := [Lower(name[0])] + rest;
    assert forall i :: 1 <= i < |r| ==> r[i] == rest[i - 1];
  }

  /** The spelling is built word by word. */
  lemma {:induction false} KebabTailAppend(a: string, b: string)
    ensures KebabTail(a + b) == KebabTail(a) + KebabTail(b)
  {
    if a != [] {
      assert (a + b)[1..] == a[1..] + b;
      KebabTailAppend(a[1..], b);
    } else {
      assert a + b == b;
    }
  }

  lemma KebabCaseAppend(a: string, b: string)
    requires a != []
    ensures KebabCase(a + b) == KebabCase(a) + KebabTail(b)
  {
    assert (a + b)[1..] == a[1..] + b;
    KebabTailAppend(a[1..], b);
  }

  predicate AllLower(s: string) {
    forall ch :: ch in s ==> IsLower(ch)
  }

  lemma {:induction false} KebabTailLower(s: string)
    requires AllLower(s)
    ensures KebabTail(s) == s
  {
    if s != [] {
      assert AllLower(s[1..]) by {
        assert forall ch :: ch in s[1..] ==> ch in s;
      }
      KebabTailLower(s[1..]);
      assert s[0] in s && !IsUpper(s[0]);
      assert [s[0]] + s[1..] == s;
    }
  }

  /** A capitalised word is spelled in lower case. */
  lemma KebabWord(first: char, rest: string)
    requires IsUpper(first) && AllLower(rest)
    ensures KebabCase([first] + rest) == [Lower(first)] + rest
  {
    assert ([first] + rest)[1..] == rest;
    KebabTailLower(rest);
  }

  /** A later capitalised word is spelled as a hyphen and the word in lower case. */
  lemma KebabTailWord(first: char, rest: string)
    requires IsUpper(first) && AllLower(rest)
    ensures KebabTail([first] + rest) == ['-', Lower(first)] + rest
  {
    assert ([first] + rest)[1..] == rest;
    KebabTailLower(rest);
  }
}
