/** The JavaScript string operations the components rely on: `trim`, ASCII
    `toLowerCase`/`toUpperCase`, `includes`, `split('@')[0]` and the `||`
    fallbacks over possibly missing or empty strings. */
module Text {
  import opened Base

  /** The characters `String.prototype.trim` removes: ECMAScript WhiteSpace and
      LineTerminator code points. */
  predicate IsSpace(c: char) {
    c == ' ' || c == '\t' || c == '\n' || c == '\r' || c == '\U{0B}' || c == '\U{0C}'
    || c == '\U{A0}' || c == '\U{1680}' || ('\U{2000}' <= c <= '\U{200A}')
    || c == '\U{2028}' || c == '\U{2029}' || c == '\U{202F}' || c == '\U{205F}'
    || c == '\U{3000}' || c == '\U{FEFF}'
  }

  /** Drops leading whitespace: the result is a suffix of `s` and only spaces were dropped. */
  function TrimStart(s: string): (r: string)
    ensures |r| <= |s| && r == s[|s| - |r|..]
    ensures r == [] || !IsSpace(r[0])
    ensures forall k :: 0 <= k < |s| - |r| ==> IsSpace(s[k])
    decreases |s|
  {
    if s != [] && IsSpace(s[0]) then TrimStart(s[1..]) else s
  }

  /** Drops trailing whitespace: the result is a prefix of `s` and only spaces were dropped. */
  function TrimEnd(s: string): (r: string)
    ensures |r| <= |s| && r == s[..|r|]
    ensures r == [] || !IsSpace(r[|r| - 1])
    ensures forall k :: |r| <= k < |s| ==> IsSpace(s[k])
    decreases |s|
  {
    if s != [] && IsSpace(s[|s| - 1]) then TrimEnd(s[..|s| - 1]) else s
  }

  /** `s.trim()`: empty exactly when `s` is all whitespace; otherwise it begins and
      ends with a non-space character and is a contiguous piece of `s`. */
  function Trim(s: string): (r: string)
    ensures |r| <= |s|
    ensures r == [] <==> forall k :: 0 <= k < |s| ==> IsSpace(s[k])
    ensures r != [] ==> !IsSpace(r[0]) && !IsSpace(r[|r| - 1])
  {
    TrimParts(s);
    TrimEnd(TrimStart(s))
  }

  lemma TrimParts(s: string)
    ensures var t := TrimStart(s); var r := TrimEnd(t);
      && (r == [] <==> forall k :: 0 <= k < |s| ==> IsSpace(s[k]))
      && (r != [] ==> !IsSpace(r[0]) && !IsSpace(r[|r| - 1]))
      && r == s[|s| - |t|..][..|r|]
  {
    var t := TrimStart(s);
    var r := TrimEnd(t);
    if r == [] {
      // `t` is all whitespace yet cannot start with a space, so nothing is left after TrimStart.
      assert t == [];
    }
  }

  /** The trimmed string is a contiguous piece of the original. */
  lemma TrimIsInfix(s: string)
    ensures exists i :: 0 <= i <= |s| - |Trim(s)| && Trim(s) == s[i..][..|Trim(s)|]
  {
    TrimParts(s);
  }

  /** `!s.trim()`: the input is empty or whitespace only. */
  predicate IsBlank(s: string) {
    forall k :: 0 <= k < |s| ==> IsSpace(s[k])
  }

  /** Blankness is exactly the guard `!s.trim()` of every submit handler:
      trimming leaves nothing just when the input is blank. */
  lemma BlankIsEmptyTrim(s: string)
    ensures IsBlank(s) <==> Trim(s) == []
  {
  }

  /** Trimming twice is trimming once. */
  lemma TrimIdempotent(s: string)
    ensures Trim(Trim(s)) == Trim(s)
  {
    var r := Trim(s);
    assert TrimStart(r) == r;
    assert TrimEnd(r) == r;
  }

  /** `s.trim() || null`: a blank field becomes null, any other is stored trimmed. */
  function NullIfBlank(s: string): (r: Option<string>)
    ensures r.None? <==> IsBlank(s)
    ensures r.Some? ==> r.value == Trim(s) && r.value != [] && !IsSpace(r.value[0])
  {
    if Trim(s) == [] then None else Some(Trim(s))
  }

  /** ASCII case folding, the part of `toLowerCase` this model covers. */
  function LowerChar(c: char): char {
    if 'A' <= c <= 'Z' then (c as int + 32) as char else c
  }

  /** ASCII upper-casing of one character (`charAt(0).toUpperCase()`). */
  function UpperChar(c: char): (u: char)
    ensures !('a' <= u <= 'z')
    ensures LowerChar(u) == LowerChar(c)
  {
    if 'a' <= c <= 'z' then (c as int - 32) as char else c
  }

  /** `s.toLowerCase()` over ASCII: same length, every letter folded. */
  function ToLower(s: string): (r: string)
    ensures |r| == |s|
    ensures forall k :: 0 <= k < |s| ==> r[k] == LowerChar(s[k]) && !('A' <= r[k] <= 'Z')
  {
    seq(|s|, k requires 0 <= k < |s| => LowerChar(s[k]))
  }

  /** `s.includes(sub)`: `sub` occurs at some position of `s`. */
  predicate Contains(s: string, sub: string)
    ensures Contains(s, sub) ==> |sub| <= |s|
    ensures sub <= s ==> Contains(s, sub)
    decreases |s|
  {
    sub <= s || (s != [] && Contains(s[1..], sub))
  }

  /** An occurrence at position `i` makes `Contains` hold. */
  lemma {:induction false} ContainsAt(s: string, sub: string, i: nat)
    requires i + |sub| <= |s| && s[i..i + |sub|] == sub
    ensures Contains(s, sub)
  {
    if i == 0 {
      assert sub <= s;
    } else {
      assert s[1..][i - 1..i - 1 + |sub|] == s[i..i + |sub|];
      ContainsAt(s[1..], sub, i - 1);
    }
  }

  /** `Contains` holds only because of an occurrence at some position. */
  lemma {:induction false} ContainsWitness(s: string, sub: string) returns (i: nat)
    requires Contains(s, sub)
    ensures i + |sub| <= |s| && s[i..i + |sub|] == sub
    decreases |s|
  {
    if sub <= s {
      i := 0;
    } else {
      var j := ContainsWitness(s[1..], sub);
      assert s[1..][j..j + |sub|] == s[j + 1..j + 1 + |sub|];
      i := j + 1;
    }
  }

  /** `s.split('@')[0]`: the text before the first '@', or all of `s` when it has none. */
  function BeforeAt(s: string): (r: string)
    ensures r <= s
    ensures '@' !in r
    ensures r == s || s[|r|] == '@'
  {
    if s == [] || s[0] == '@' then [] else [s[0]] + BeforeAt(s[1..])
  }

  /** JavaScript truthiness of an optional string: the falsy values are the
      missing value and the empty string, and no other. */
  predicate Truthy(o: Option<string>)
    ensures Truthy(o) <==> o != None && o != Some("")
  {
    o.Some? && o.value != []
  }

  /** `a || b` over optional strings: `a` when it is truthy, otherwise `b`. */
  function Or(a: Option<string>, b: Option<string>): (r: Option<string>)
    ensures Truthy(r) <==> Truthy(a) || Truthy(b)
    ensures Truthy(a) ==> r == a
    ensures !Truthy(a) ==> r == b
  {
    if Truthy(a) then a else b
  }

  /** `a || null`: a present but empty string becomes null. */
  function OrNull(a: Option<string>): (r: Option<string>)
    ensures Truthy(a) ==> r == a
    ensures !Truthy(a) ==> r.None?
  {
    if Truthy(a) then a else None
  }

  /** `a || fallback`: the value of `a` when it is truthy, otherwise `fallback`. */
  function OrElse(a: Option<string>, fallback: string): (r: string)
    ensures Truthy(a) ==> r == a.value
    ensures !Truthy(a) ==> r == fallback
    ensures fallback != [] ==> r != []
  {
    if Truthy(a) then a.value else fallback
  }

  /** `user.email?.split('@')[0] || 'User'`: the local part of the address, or
      "User" when there is no address or it starts with '@'. */
  function EmailName(email: Option<string>): (r: string)
    ensures r != []
    ensures email.Some? && BeforeAt(email.value) != [] ==> r == BeforeAt(email.value) && r <= email.value && '@' !in r
    ensures email.None? || BeforeAt(email.value) == [] ==> r == "User"
  {
    if email.None? then "User" else OrElse(Some(BeforeAt(email.value)), "User")
  }

  /** An address with a non-empty local part yields exactly that local part. */
  lemma {:induction false} EmailNameOfAddress(local: string, domain: string)
    requires local != [] && '@' !in local
    ensures EmailName(Some(local + "@" + domain)) == local
  {
    LocalPartBeforeAt(local, domain);
  }

  lemma {:induction false} LocalPartBeforeAt(local: string, domain: string)
    requires '@' !in local
    ensures BeforeAt(local + "@" + domain) == local
  {
    if local == [] {
      assert (local + "@" + domain)[0] == '@';
    } else {
      assert (local + "@" + domain)[1..] == local[1..] + "@" + domain;
      LocalPartBeforeAt(local[1..], domain);
    }
  }
}
