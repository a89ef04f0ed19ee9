/**
 * The e-mail rule shared by the login and signup screens: the regular
 * expression /^[^\s@]+@[^\s@]+\.[^\s@]+$/ (app/login.tsx:59, app/signup.tsx:73).
 * It is a simplified shape check, not an address parser.
 */
module EmailRule {
  import opened JsText

  /** The character class `[^\s@]`. */
  predicate IsAddressChar(c: char) {
    !IsWhitespace(c) && c != '@'
  }

  /** `t` is matched by `[^\s@]*` (the `+` in the pattern adds non-emptiness). */
  predicate AllAddressChars(t: string) {
    forall i :: 0 <= i < |t| ==> IsAddressChar(t[i])
  }

  /**
   * What the regular expression accepts, read off its structure: the whole of
   * `s` is a non-empty run of address characters, `@`, a non-empty run, `.`,
   * and a non-empty run. The second run may itself contain dots; the pattern
   * backtracks to any dot that leaves a non-empty run after it.
   */
  ghost predicate MatchesPattern(s: string) {
    exists at, dot ::
      0 < at && at + 1 < dot && dot + 1 < |s| && s[at] == '@' && s[dot] == '.' &&
      AllAddressChars(s[..at]) && AllAddressChars(s[at + 1..dot]) && AllAddressChars(s[dot + 1..])
  }

  /** Index of the first `@` in `s`, or `|s|` if there is none. */
  function IndexOfAt(s: string): (r: nat)
    ensures r <= |s|
    ensures r < |s| ==> s[r] == '@'
    ensures forall k :: 0 <= k < r ==> s[k] != '@'
  {
    if s == [] then 0
    else if s[0] == '@' then 0
    else 1 + IndexOfAt(s[1..])
  }

  /** `d` has a `.` that is neither its first nor its last character. */
  predicate HasInnerDot(d: string) {
    exists m :: 0 < m < |d| - 1 && d[m] == '.'
  }

  /**
   * The rule stated by hand: exactly one `@`, no whitespace, a non-empty part
   * before the `@`, and a part after it with an inner dot.
   */
  predicate IsValidEmail(s: string) {
    multiset(s)['@'] == 1 && !HasWhitespace(s) &&
    var at := IndexOfAt(s);
    0 < at < |s| && HasInnerDot(s[at + 1..])
  }

  /** A slice is made of address characters exactly when every position it covers holds one. */
  lemma AllAddressCharsSlice(s: string, lo: nat, hi: nat)
    requires lo <= hi <= |s|
    ensures AllAddressChars(s[lo..hi]) <==> forall k :: lo <= k < hi ==> IsAddressChar(s[k])
  {
    if forall k :: lo <= k < hi ==> IsAddressChar(s[k]) {
      forall j | 0 <= j < hi - lo ensures IsAddressChar(s[lo..hi][j]) {
        assert s[lo..hi][j] == s[lo + j];
      }
    }
    if AllAddressChars(s[lo..hi]) {
      forall k | lo <= k < hi ensures IsAddressChar(s[k]) {
        assert s[lo..hi][k - lo] == s[k];
      }
    }
  }

  /** If `@` occurs only at `at`, then `s` holds exactly one `@`, and `at` is the first. */
  lemma {:induction false} SoleAt(s: string, at: nat)
    requires at < |s| && s[at] == '@'
    requires forall k :: 0 <= k < |s| && k != at ==> s[k] != '@'
    ensures multiset(s)['@'] == 1 && IndexOfAt(s) == at
  {
    var pre, post := s[..at], s[at + 1..];
    assert s == pre + [s[at]] + post;
    assert '@' !in pre by {
      forall k | 0 <= k < |pre| ensures pre[k] != '@' { assert pre[k] == s[k]; }
    }
    assert '@' !in post by {
      forall k | 0 <= k < |post| ensures post[k] != '@' { assert post[k] == s[at + 1 + k]; }
    }
    assert multiset(s) == multiset(pre) + multiset{s[at]} + multiset(post);
  }

  /** If `s` holds exactly one `@`, it is the one at `IndexOfAt(s)`. */
  lemma {:induction false} OnlyFirstAt(s: string)
    requires multiset(s)['@'] == 1
    ensures IndexOfAt(s) < |s|
    ensures forall k :: 0 <= k < |s| && k != IndexOfAt(s) ==> s[k] != '@'
  {
    var at := IndexOfAt(s);
    assert '@' in s;
    var i :| 0 <= i < |s| && s[i] == '@';
    assert at <= i;
    var pre, post := s[..at + 1], s[at + 1..];
    assert s == pre + post;
    assert pre[at] == '@';
    assert multiset(post)['@'] == 0;
    forall k | at < k < |s| ensures s[k] != '@' {
      assert post[k - at - 1] == s[k];
    }
  }

  /** The two halves of the equivalence below, one direction each. */
  lemma ValidEmailMatchesPattern(s: string)
    requires IsValidEmail(s)
    ensures MatchesPattern(s)
  {
    var at := IndexOfAt(s);
    OnlyFirstAt(s);
    var d := s[at + 1..];
    var m :| 0 < m < |d| - 1 && d[m] == '.';
    var dot := at + 1 + m;
    assert s[dot] == '.' by { assert d[m] == s[dot]; }
    assert forall k :: 0 <= k < |s| && k != at ==> IsAddressChar(s[k]);
    AllAddressCharsSlice(s, 0, at);
    AllAddressCharsSlice(s, at + 1, dot);
    AllAddressCharsSlice(s, dot + 1, |s|);
    assert s[..at] == s[0..at] && s[dot + 1..] == s[dot + 1..|s|];
  }

  /** In a match of the pattern, every character other than the `@` is an address character. */
  lemma PatternRunsCoverAllButAt(s: string, at: nat, dot: nat)
    requires 0 < at && at + 1 < dot && dot + 1 < |s| && s[dot] == '.'
    requires AllAddressChars(s[..at]) && AllAddressChars(s[at + 1..dot]) && AllAddressChars(s[dot + 1..])
    ensures forall k :: 0 <= k < |s| && k != at ==> IsAddressChar(s[k])
  {
    assert s[..at] == s[0..at] && s[dot + 1..] == s[dot + 1..|s|];
    AllAddressCharsSlice(s, 0, at);
    AllAddressCharsSlice(s, at + 1, dot);
    AllAddressCharsSlice(s, dot + 1, |s|);
  }

  lemma PatternMatchIsValidEmail(s: string)
    requires MatchesPattern(s)
    ensures IsValidEmail(s)
  {
    var at, dot :|
      0 < at && at + 1 < dot && dot + 1 < |s| && s[at] == '@' && s[dot] == '.' &&
      AllAddressChars(s[..at]) && AllAddressChars(s[at + 1..dot]) && AllAddressChars(s[dot + 1..]);
    PatternRunsCoverAllButAt(s, at, dot);
    SoleAt(s, at);
    assert !HasWhitespace(s) by {
      forall k | 0 <= k < |s| ensures !IsWhitespace(s[k]) {
        if k != at { assert IsAddressChar(s[k]); }
      }
    }
    assert s[at + 1..][dot - at - 1] == '.';
  }

  /** The hand-written rule accepts exactly the strings the regular expression accepts. */
  lemma IsValidEmailIffPattern(s: string)
    ensures IsValidEmail(s) <==> MatchesPattern(s)
  {
    if IsValidEmail(s) { ValidEmailMatchesPattern(s); }
    if MatchesPattern(s) { PatternMatchIsValidEmail(s); }
  }

  /** An accepted address has no surrounding whitespace, so trimming it is the identity. */
  lemma ValidEmailIsTrimmed(s: string)
    requires IsValidEmail(s)
    ensures Trim(s) == s
  {
  }
}
