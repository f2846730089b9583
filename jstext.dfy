/** JavaScript string semantics used by the authentication core: the `\s`
    character class, `toLowerCase`, `split('@')[0]`, `includes` and the
    UTF-16 `length` of a string. */
module JsText {

  datatype Option<+T> = None | Some(value: T)

  /** JavaScript truthiness of an optional string: `null`, `undefined` and
      the empty string are falsy. */
  predicate Truthy(o: Option<string>) {
    o.Some? && o.value != ""
  }

  /** `o || fallback` for an optional string. */
  function OrElse(o: Option<string>, fallback: string): (r: string)
    ensures Truthy(o) ==> r == o.value
    ensures !Truthy(o) ==> r == fallback
  {
    if Truthy(o) then o.value else fallback
  }

  /** `c` is matched by the regular-expression class `\s`. */
  predicate IsJsWhitespace(c: char) {
    || c == '\t' || c == '\n' || c == '\U{B}' || c == '\U{C}' || c == '\r' || c == ' '
    || c == '\U{A0}' || c == '\U{1680}' || ('\U{2000}' <= c <= '\U{200A}')
    || c == '\U{2028}' || c == '\U{2029}' || c == '\U{202F}' || c == '\U{205F}'
    || c == '\U{3000}' || c == '\U{FEFF}'
  }

  /** A character kept by the class `[a-z0-9]`. */
  predicate IsLowerAlnum(c: char) {
    ('a' <= c <= 'z') || ('0' <= c <= '9')
  }

  /** An ASCII letter or digit. */
  predicate IsAsciiAlnum(c: char) {
    ('a' <= c <= 'z') || ('A' <= c <= 'Z') || ('0' <= c <= '9')
  }

  predicate AllLowerAlnum(s: string) {
    forall i :: 0 <= i < |s| ==> IsLowerAlnum(s[i])
  }

  /** `s.replace(/\s+/g, '')`: every whitespace character removed, the
      others kept in order. */
  function RemoveWhitespace(s: string): (r: string)
    ensures |r| <= |s|
    ensures forall i :: 0 <= i < |r| ==> !IsJsWhitespace(r[i])
    ensures forall c :: !IsJsWhitespace(c) ==> multiset(r)[c] == multiset(s)[c]
  {
    if s == [] then []
    else
      var rest := RemoveWhitespace(s[1..]);
      assert s == [s[0]] + s[1..];
      if IsJsWhitespace(s[0]) then rest else [s[0]] + rest
  }

  /** One character is dropped exactly when it is whitespace. */
  lemma RemoveWhitespaceChar(c: char)
    ensures RemoveWhitespace([c]) == if IsJsWhitespace(c) then [] else [c]
  {
  }

  /** Removal works piece by piece, so the kept characters stay in order. */
  lemma {:induction false} RemoveWhitespaceAppend(a: string, b: string)
    ensures RemoveWhitespace(a + b) == RemoveWhitespace(a) + RemoveWhitespace(b)
  {
    if a != [] {
      assert (a + b)[1..] == a[1..] + b;
      RemoveWhitespaceAppend(a[1..], b);
    } else {
      assert a + b == b;
    }
  }

  /** Removing the whitespace of a string of ASCII letters, digits and
      whitespace leaves only ASCII letters and digits. */
  lemma {:induction false} RemoveWhitespaceOnlyKeeps(s: string)
    requires forall i :: 0 <= i < |s| ==> IsAsciiAlnum(s[i]) || IsJsWhitespace(s[i])
    ensures forall i :: 0 <= i < |RemoveWhitespace(s)| ==> IsAsciiAlnum(RemoveWhitespace(s)[i])
  {
    if s != [] {
      RemoveWhitespaceOnlyKeeps(s[1..]);
    }
  }

  /** `s.replace(/[^a-z0-9]/g, '')`: every character outside `[a-z0-9]`
      removed, the others kept in order. */
  function KeepLowerAlnum(s: string): (r: string)
    ensures |r| <= |s|
    ensures AllLowerAlnum(r)
    ensures forall c :: IsLowerAlnum(c) ==> multiset(r)[c] == multiset(s)[c]
  {
    if s == [] then []
    else
      var rest := KeepLowerAlnum(s[1..]);
      assert s == [s[0]] + s[1..];
      if IsLowerAlnum(s[0]) then [s[0]] + rest else rest
  }

  lemma KeepLowerAlnumCons(c: char, s: string)
    ensures KeepLowerAlnum([c] + s) == (if IsLowerAlnum(c) then [c] else []) + KeepLowerAlnum(s)
  {
    assert ([c] + s)[1..] == s;
  }

  /** Stripping is the identity exactly on strings already in `[a-z0-9]*`. */
  lemma {:induction false} KeepLowerAlnumFixpoint(s: string)
    ensures KeepLowerAlnum(s) == s <==> AllLowerAlnum(s)
  {
    if s != [] {
      KeepLowerAlnumFixpoint(s[1..]);
      if !IsLowerAlnum(s[0]) {
        assert |KeepLowerAlnum(s)| <= |s[1..]| < |s|;
      }
    }
  }

  /** The lower-case form of one character, as `String.prototype.toLowerCase`
      maps it, for every character whose lower-case form holds an ASCII letter
      or digit; every other character is kept as it is. */
  function LowerChar(c: char): (r: string)
    ensures |r| >= 1
    ensures 'A' <= c <= 'Z' ==> r == [(c as int + 32) as char]
    ensures IsLowerAlnum(c) ==> r == [c]
  {
    if 'A' <= c <= 'Z' then [(c as int + 32) as char]
    else if c == '\U{130}' then "i\U{307}"   // LATIN CAPITAL LETTER I WITH DOT ABOVE
    else if c == '\U{212A}' then "k"         // KELVIN SIGN
    else [c]
  }

  /** `s.toLowerCase()`. */
  function ToLowerCase(s: string): (r: string)
    ensures |r| >= |s|
    ensures r == "" <==> s == ""
  {
    if s == [] then [] else LowerChar(s[0]) + ToLowerCase(s[1..])
  }

  /** A one-character string is lower-cased as its character. */
  lemma ToLowerCaseChar(c: char)
    ensures ToLowerCase([c]) == LowerChar(c)
  {
    assert [c][1..] == [];
  }

  /** Lower-casing works piece by piece: the characters keep their order. */
  lemma {:induction false} ToLowerCaseAppend(a: string, b: string)
    ensures ToLowerCase(a + b) == ToLowerCase(a) + ToLowerCase(b)
  {
    if a != [] {
      assert (a + b)[1..] == a[1..] + b;
      assert (a + b)[0] == a[0];
      ToLowerCaseAppend(a[1..], b);
    } else {
      assert a + b == b;
    }
  }

  /** Lower-casing ASCII letters and digits gives `[a-z0-9]` only, one
      character for one. */
  lemma {:induction false} LowerOfAsciiAlnum(s: string)
    requires forall i :: 0 <= i < |s| ==> IsAsciiAlnum(s[i])
    ensures |ToLowerCase(s)| == |s| && AllLowerAlnum(ToLowerCase(s))
  {
    if s != [] {
      LowerOfAsciiAlnum(s[1..]);
    }
  }

  /** `s.split(sep)[0]`: the text before the first `sep`, or all of `s`. */
  function BeforeFirst(s: string, sep: char): (r: string)
    ensures r <= s
    ensures sep !in r
    ensures sep in s ==> |r| < |s| && s[|r|] == sep
    ensures sep !in s ==> r == s
  {
    if s == [] then []
    else if s[0] == sep then []
    else [s[0]] + BeforeFirst(s[1..], sep)
  }

  /** The text before the first `sep` of `a + b`, when `a` has no `sep` and
      `b` starts with one, is `a`. */
  lemma {:induction false} BeforeFirstPrefix(a: string, b: string, sep: char)
    requires sep !in a && b != [] && b[0] == sep
    ensures BeforeFirst(a + b, sep) == a
  {
    if a != [] {
      assert (a + b)[1..] == a[1..] + b;
      BeforeFirstPrefix(a[1..], b, sep);
    } else {
      assert a + b == b;
    }
  }

  /** The text after the first `sep`, or `""` when there is none. */
  function AfterFirst(s: string, sep: char): (r: string)
    ensures sep in s ==> s == BeforeFirst(s, sep) + [sep] + r
    ensures |r| < |s| || r == []
  {
    if sep in s then s[|BeforeFirst(s, sep)| + 1..] else []
  }

  /** `s.split(sep)`: the pieces between separators, in order. */
  function Split(s: string, sep: char): (pieces: seq<string>)
    ensures |pieces| >= 1
    ensures forall i :: 0 <= i < |pieces| ==> sep !in pieces[i]
    ensures sep !in s ==> pieces == [s]
    decreases |s|
  {
    if sep in s then [BeforeFirst(s, sep)] + Split(AfterFirst(s, sep), sep) else [s]
  }

  /** Splitting a separator-free head off: `(a + sep + rest).split(sep)` is
      `a` followed by the pieces of `rest`. */
  lemma SplitCons(a: string, sep: char, rest: string)
    requires sep !in a
    ensures Split(a + [sep] + rest, sep) == [a] + Split(rest, sep)
  {
    var s := a + [sep] + rest;
    assert s == a + ([sep] + rest);
    BeforeFirstPrefix(a, [sep] + rest, sep);
    assert s[|a| + 1..] == rest;
  }

  /** `s.includes(sub)`. */
  predicate Includes(s: string, sub: string) {
    if |s| < |sub| then false
    else s[..|sub|] == sub || Includes(s[1..], sub)
  }

  /** A string that includes `sub` holds the first character of `sub`. */
  lemma {:induction false} IncludesHead(s: string, sub: string)
    requires sub != [] && Includes(s, sub)
    ensures sub[0] in s
  {
    if s[..|sub|] != sub {
      IncludesHead(s[1..], sub);
      assert sub[0] in s[1..];
    } else {
      assert s[0] == sub[0];
    }
  }

  /** `s.includes(c)` for a one-character `c` is membership. */
  lemma {:induction false} IncludesChar(s: string, c: char)
    ensures Includes(s, [c]) <==> c in s
  {
    if |s| >= 1 {
      IncludesChar(s[1..], c);
      assert s == [s[0]] + s[1..];
    }
  }

  /** `s.length`: JavaScript counts UTF-16 code units, so a character outside
      the Basic Multilingual Plane counts twice. */
  function Utf16Length(s: string): (n: nat)
    ensures |s| <= n <= 2 * |s|
    ensures (forall i :: 0 <= i < |s| ==> s[i] as int <= 0xFFFF) ==> n == |s|
  {
    if s == [] then 0
    else (if s[0] as int > 0xFFFF then 2 else 1) + Utf16Length(s[1..])
  }

  /** One character is one code unit, or a surrogate pair outside the Basic
      Multilingual Plane. */
  lemma Utf16LengthChar(c: char)
    ensures Utf16Length([c]) == if c as int > 0xFFFF then 2 else 1
  {
    assert [c][1..] == [];
  }

  /** Lengths add up over concatenation. */
  lemma {:induction false} Utf16LengthAppend(a: string, b: string)
    ensures Utf16Length(a + b) == Utf16Length(a) + Utf16Length(b)
  {
    if a != [] {
      assert (a + b)[1..] == a[1..] + b;
      assert (a + b)[0] == a[0];
      Utf16LengthAppend(a[1..], b);
    } else {
      assert a + b == b;
    }
  }

  /** A string made only of characters outside the Basic Multilingual Plane
      counts two code units per character: three emoji have length 6. */
  lemma {:induction false} Utf16LengthAstral(s: string)
    requires forall i :: 0 <= i < |s| ==> s[i] as int > 0xFFFF
    ensures Utf16Length(s) == 2 * |s|
  {
    if s != [] {
      Utf16LengthAstral(s[1..]);
    }
  }
}
