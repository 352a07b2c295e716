/** String helpers standing in for the JavaScript string methods the handlers use. */
module Text {
  import opened Wrappers

  /** `toLowerCase` on the ASCII letters. */
  function LowerChar(c: char): char {
    if 'A' <= c <= 'Z' then (c as int + 32) as char else c
  }

  function Lower(s: string): (r: string)
    ensures |r| == |s|
  {
    seq(|s|, i requires 0 <= i < |s| => LowerChar(s[i]))
  }

  /** The characters matched by the JavaScript regular-expression class `\s`
      (tab, line feed, vertical tab, form feed, carriage return, space, no-break space,
      ogham space mark, the spaces U+2000..U+200A, the line and paragraph separators,
      narrow no-break space, medium mathematical space, ideographic space, byte order mark). */
  predicate IsWhitespace(c: char) {
    var n := c as int;
    (9 <= n <= 13) || n == 32 || n == 0xA0 || n == 0x1680 || (0x2000 <= n <= 0x200A)
    || n == 0x2028 || n == 0x2029 || n == 0x202F || n == 0x205F || n == 0x3000 || n == 0xFEFF
  }

  /** `s.replace(/\s+/g, '')`: every whitespace character removed, the rest kept in order. */
  function StripWhitespace(s: string): (r: string)
    ensures |r| <= |s|
    ensures forall i :: 0 <= i < |r| ==> !IsWhitespace(r[i])
    ensures forall c :: c in r <==> c in s && !IsWhitespace(c)
  {
    if s == [] then []
    else (if IsWhitespace(s[0]) then [] else [s[0]]) + StripWhitespace(s[1..])
  }

  /** A single character is removed when it is whitespace and kept otherwise. */
  lemma StripWhitespaceChar(c: char)
    ensures StripWhitespace([c]) == if IsWhitespace(c) then [] else [c]
  {
    assert [c][1..] == [];
  }

  /** Stripping works piece by piece: with the one-character case above, it fixes both the
      order and the number of the characters kept. */
  lemma {:induction false} StripWhitespaceAppend(a: string, b: string)
    ensures StripWhitespace(a + b) == StripWhitespace(a) + StripWhitespace(b)
    decreases |a|
  {
    if a != [] {
      assert (a + b)[1..] == a[1..] + b;
      StripWhitespaceAppend(a[1..], b);
    } else {
      assert a + b == b;
    }
  }

  /** A string of whitespace only squeezes to nothing. */
  lemma {:induction false} StripAllWhitespace(s: string)
    requires forall i :: 0 <= i < |s| ==> IsWhitespace(s[i])
    ensures StripWhitespace(s) == []
    decreases |s|
  {
    if s != [] {
      StripAllWhitespace(s[1..]);
    }
  }

  predicate IsPrefix(p: string, s: string) {
    |p| <= |s| && s[..|p|] == p
  }

  /** `s.includes(sub)`. */
  predicate Contains(s: string, sub: string)
    decreases |s|
  {
    IsPrefix(sub, s) || (|s| > 0 && Contains(s[1..], sub))
  }

  /** String order as MongoDB compares string values: by character code, a proper prefix
      first. */
  predicate StrLess(a: string, b: string)
    decreases |a|
  {
    if b == [] then false
    else if a == [] then true
    else if a[0] != b[0] then a[0] < b[0]
    else StrLess(a[1..], b[1..])
  }

  /** Strings that differ in their first character are ordered by it. */
  lemma StrLessFirst(a: string, b: string)
    requires a != [] && b != [] && a[0] != b[0]
    ensures StrLess(a, b) <==> a[0] < b[0]
  {
  }

  lemma {:induction false} StrLessIrreflexive(a: string)
    ensures !StrLess(a, a)
    decreases |a|
  {
    if a != [] {
      StrLessIrreflexive(a[1..]);
    }
  }

  /** `new RegExp(pattern, 'i').test(value)` for a pattern without metacharacters. */
  predicate CityMatches(pattern: string, value: string) {
    Contains(Lower(value), Lower(pattern))
  }

  /** A query-string parameter is "given" when it is present and not empty (JavaScript truthiness). */
  predicate Given(o: Option<string>) {
    o.Some? && o.value != ""
  }

  lemma {:induction false} ContainsAt(s: string, sub: string, k: nat)
    requires k + |sub| <= |s| && s[k..k + |sub|] == sub
    ensures Contains(s, sub)
    decreases k
  {
    if k == 0 {
      assert s[..|sub|] == sub;
    } else {
      assert s[1..][k - 1..k - 1 + |sub|] == sub;
      ContainsAt(s[1..], sub, k - 1);
    }
  }

  lemma {:induction false} ContainsWitness(s: string, sub: string) returns (k: nat)
    requires Contains(s, sub)
    ensures k + |sub| <= |s| && s[k..k + |sub|] == sub
    decreases |s|
  {
    if IsPrefix(sub, s) {
      k := 0;
    } else {
      var j := ContainsWitness(s[1..], sub);
      k := j + 1;
      assert s[k..k + |sub|] == s[1..][j..j + |sub|];
    }
  }

  /** `sub` occurs in `s` starting at offset `k`. */
  predicate OccursAt(s: string, sub: string, k: nat) {
    k + |sub| <= |s| && s[k..k + |sub|] == sub
  }

  /** `includes` is exactly "occurs at some offset". */
  lemma ContainsIff(s: string, sub: string)
    ensures Contains(s, sub) <==> exists k: nat :: OccursAt(s, sub, k)
  {
    if Contains(s, sub) {
      var k := ContainsWitness(s, sub);
      assert OccursAt(s, sub, k);
    }
    if exists k: nat :: OccursAt(s, sub, k) {
      var k: nat :| OccursAt(s, sub, k);
      ContainsAt(s, sub, k);
    }
  }

  /** The empty string occurs in every string, and every string in itself. */
  lemma ContainsTrivial(s: string)
    ensures Contains(s, "") && Contains(s, s)
  {
    assert s[..0] == "";
    assert s[..|s|] == s;
  }

  /** City matching ignores the case of both the pattern and the stored name. */
  lemma CityMatchesCaseInsensitive(pattern: string, value: string)
    ensures CityMatches(pattern, value) == CityMatches(Lower(pattern), Lower(value))
  {
    LowerIdempotent(pattern);
    LowerIdempotent(value);
  }

  lemma LowerIdempotent(s: string)
    ensures Lower(Lower(s)) == Lower(s)
  {
  }
}
