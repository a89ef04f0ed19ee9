/**
 * The pieces of JavaScript string semantics the screens rely on: the `\s`
 * character class, `String.prototype.trim`, `String.prototype.length`
 * (UTF-16 code units) and the truthiness of an optional string in `a || b`.
 */
module JsText {
  import opened Options

  /**
   * The characters `\s` matches in a JavaScript regular expression. The same set
   * (WhiteSpace plus LineTerminator of ECMAScript) is what `trim` strips.
   */
  predicate IsWhitespace(c: char) {
    var n := c as int;
    (0x09 <= n <= 0x0D) || n == 0x20 || n == 0xA0 || n == 0x1680
    || (0x2000 <= n <= 0x200A) || n == 0x2028 || n == 0x2029
    || n == 0x202F || n == 0x205F || n == 0x3000 || n == 0xFEFF
  }

  predicate HasWhitespace(s: string) {
    exists i :: 0 <= i < |s| && IsWhitespace(s[i])
  }

  /** Drops the leading whitespace: what remains is a suffix that does not start with whitespace. */
  function TrimStart(s: string): (r: string)
    ensures |r| <= |s| && r == s[|s| - |r|..]
    ensures r == [] || !IsWhitespace(r[0])
    ensures forall i :: 0 <= i < |s| - |r| ==> IsWhitespace(s[i])
  {
    if s != [] && IsWhitespace(s[0]) then TrimStart(s[1..]) else s
  }

  /** Drops the trailing whitespace: what remains is a prefix that does not end with whitespace. */
  function TrimEnd(s: string): (r: string)
    ensures |r| <= |s| && r == s[..|r|]
    ensures r == [] || !IsWhitespace(r[|r| - 1])
    ensures forall i :: |r| <= i < |s| ==> IsWhitespace(s[i])
  {
    if s != [] && IsWhitespace(s[|s| - 1]) then TrimEnd(s[..|s| - 1]) else s
  }

  /** `s.trim()`: drops the whitespace at both ends (see `TrimKeepsInfix`). */
  function Trim(s: string): (r: string)
    ensures |r| <= |s|
    ensures r == [] || (!IsWhitespace(r[0]) && !IsWhitespace(r[|r| - 1]))
    ensures !HasWhitespace(s) ==> r == s
  {
    TrimEnd(TrimStart(s))
  }

  /** `r` is `s[i..j]`, and everything outside `i..j` is whitespace. */
  predicate StripsTo(s: string, i: nat, j: nat, r: string) {
    i <= j <= |s| && r == s[i..j] &&
    (forall k :: 0 <= k < i ==> IsWhitespace(s[k])) &&
    (forall k :: j <= k < |s| ==> IsWhitespace(s[k]))
  }

  /** A prefix `r` of a suffix `t` of `s`, each cut at whitespace, is an infix `s` strips to. */
  lemma StripsToInfix(s: string, t: string, r: string)
    requires |t| <= |s| && t == s[|s| - |t|..]
    requires forall k :: 0 <= k < |s| - |t| ==> IsWhitespace(s[k])
    requires |r| <= |t| && r == t[..|r|]
    requires forall k :: |r| <= k < |t| ==> IsWhitespace(t[k])
    ensures StripsTo(s, |s| - |t|, |s| - |t| + |r|, r)
  {
    var i := |s| - |t|;
    forall k | i + |r| <= k < |s|
      ensures IsWhitespace(s[k])
    {
      assert s[k] == t[k - i];
    }
  }

  /**
   * What `trim` leaves is the infix of `s` that remains once a run of
   * whitespace is dropped from each end.
   */
  lemma TrimKeepsInfix(s: string)
    ensures exists i: nat, j: nat :: StripsTo(s, i, j, Trim(s))
  {
    var t := TrimStart(s);
    var r := TrimEnd(t);
    StripsToInfix(s, t, r);
    assert StripsTo(s, |s| - |t|, |s| - |t| + |r|, Trim(s));
  }

  /** Trimming a trimmed string changes nothing. */
  lemma TrimIdempotent(s: string)
    ensures Trim(Trim(s)) == Trim(s)
  {
    var t := Trim(s);
    if t != [] {
      assert TrimStart(t) == t;
      assert TrimEnd(t) == t;
    }
  }

  /** A string consisting only of whitespace trims to the empty string. */
  lemma {:induction false} TrimBlank(s: string)
    requires forall i :: 0 <= i < |s| ==> IsWhitespace(s[i])
    ensures Trim(s) == []
  {
    if s != [] {
      assert IsWhitespace(s[0]);
      TrimBlank(s[1..]);
    }
  }

  /**
   * `s.length`: the number of UTF-16 code units. A character outside the Basic
   * Multilingual Plane is a surrogate pair and counts twice.
   */
  function Utf16Length(s: string): (n: nat)
    ensures |s| <= n <= 2 * |s|
    ensures n == |s| <==> forall i :: 0 <= i < |s| ==> s[i] as int < 0x10000
  {
    if s == [] then 0
    else (if s[0] as int < 0x10000 then 1 else 2) + Utf16Length(s[1..])
  }

  /**
   * The length of a concatenation is the sum of the lengths, so with the
   * one-character case it fixes `length` on every string.
   */
  lemma {:induction false} Utf16LengthAppend(a: string, b: string)
    ensures Utf16Length(a + b) == Utf16Length(a) + Utf16Length(b)
  {
    if a != [] {
      assert (a + b)[1..] == a[1..] + b;
      Utf16LengthAppend(a[1..], b);
    } else {
      assert a + b == b;
    }
  }

  /** One character counts one code unit inside the Basic Multilingual Plane, two outside it. */
  lemma Utf16LengthOfChar(c: char)
    ensures Utf16Length([c]) == (if c as int < 0x10000 then 1 else 2)
  {
  }

  /** The truthiness of an optional string: present and non-empty. */
  predicate Truthy(o: Option<string>) {
    o.Some? && o.value != ""
  }

  /** `o || fallback` where `o` is an optional string. */
  function Or(o: Option<string>, fallback: string): (r: string)
    ensures Truthy(o) ==> r == o.value
    ensures !Truthy(o) ==> r == fallback
    ensures fallback != "" ==> r != ""
  {
    if Truthy(o) then o.value else fallback
  }
}
