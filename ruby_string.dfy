/**
 * The few Ruby `String` methods the bots rely on: `split.first`,
 * `strip.empty?` and `start_with?`. Whitespace is the fixed ASCII set Ruby
 * uses (no Unicode spaces).
 */
module RubyString {
  import opened Chat

  /** Whitespace for `split` with no pattern: space, \t, \n, \v, \f, \r. */
  predicate IsSpace(c: char) {
    c == ' ' || c == '\t' || c == '\n' || c == '\U{0B}' || c == '\U{0C}' || c == '\r'
  }

  /** Characters `strip` removes: the whitespace above and NUL. */
  predicate IsStrippable(c: char) {
    c == '\U{00}' || IsSpace(c)
  }

  /** No character of `s` is whitespace. */
  predicate NoSpace(s: string) {
    forall k | 0 <= k < |s| :: !IsSpace(s[k])
  }

  /** Every character of `s` is whitespace. */
  predicate AllSpace(s: string) {
    forall k | 0 <= k < |s| :: IsSpace(s[k])
  }

  /** Index of the first non-whitespace character of `s` (or |s|). */
  function LeadingSpaces(s: string): (n: nat)
    ensures n <= |s|
    ensures forall k | 0 <= k < n :: IsSpace(s[k])
    ensures n < |s| ==> !IsSpace(s[n])
  {
    if s == [] || !IsSpace(s[0]) then 0 else 1 + LeadingSpaces(s[1..])
  }

  /** Index just past the whitespace-free run of `s` that starts at `i`. */
  function WordEnd(s: string, i: nat): (j: nat)
    requires i <= |s|
    ensures i <= j <= |s|
    ensures forall k | i <= k < j :: !IsSpace(s[k])
    ensures j < |s| ==> IsSpace(s[j])
    decreases |s| - i
  {
    if i == |s| || IsSpace(s[i]) then i else WordEnd(s, i + 1)
  }

  /**
   * `s.split.first`: the first whitespace-delimited token, or nil when `s`
   * holds nothing but whitespace.
   */
  function FirstToken(s: string): (r: Option<string>)
    ensures r.None? <==> AllSpace(s)
    ensures r.Some? ==> r.value != [] && NoSpace(r.value)
  {
    var i := LeadingSpaces(s);
    if i == |s| then None
    else
      var j := WordEnd(s, i);
      assert forall k | 0 <= k < j - i :: s[i..j][k] == s[i + k];
      Some(s[i..j])
  }

  /** A single word is its own first token. */
  lemma FirstTokenOfWord(t: string)
    requires t != [] && NoSpace(t)
    ensures FirstToken(t) == Some(t)
  {
    assert LeadingSpaces(t) == 0;
    assert WordEnd(t, 0) == |t|;
    assert t[0..|t|] == t;
  }

  /** Whatever follows the first whitespace after a word does not change the token. */
  lemma FirstTokenIgnoresRest(t: string, c: char, rest: string)
    requires t != [] && NoSpace(t) && IsSpace(c)
    ensures FirstToken(t + [c] + rest) == Some(t)
  {
    var s := t + [c] + rest;
    assert s[0] == t[0];
    assert LeadingSpaces(s) == 0;
    assert s[|t|] == c;
    assert forall k | 0 <= k < |t| :: s[k] == t[k];
    assert WordEnd(s, 0) == |t|;
    assert s[0..|t|] == t;
  }

  /** Leading whitespace does not change the token. */
  lemma {:induction false} FirstTokenSkipsLeadingSpace(sp: string, s: string)
    requires AllSpace(sp)
    ensures FirstToken(sp + s) == FirstToken(s)
  {
    if sp != [] {
      var u, v := sp + s, sp[1..] + s;
      assert u[1..] == v;
      assert LeadingSpaces(u) == 1 + LeadingSpaces(v);
      FirstTokenSkipsLeadingSpace(sp[1..], s);
      var i := LeadingSpaces(v);
      if i < |v| {
        WordEndShift(sp, s, i);
        assert FirstToken(u) == Some(u[i + 1..WordEnd(u, i + 1)]);
        assert FirstToken(v) == Some(v[i..WordEnd(v, i)]);
      } else {
        assert FirstToken(u) == None;
      }
    } else {
      assert sp + s == s;
    }
  }

  /** Helper: `WordEnd` on `sp + s` is one past `WordEnd` on `sp[1..] + s`. */
  lemma WordEndShift(sp: string, s: string, i: nat)
    requires sp != [] && i < |sp[1..] + s|
    ensures WordEnd(sp + s, i + 1) == 1 + WordEnd(sp[1..] + s, i)
    ensures (sp + s)[i + 1..WordEnd(sp + s, i + 1)] == (sp[1..] + s)[i..WordEnd(sp[1..] + s, i)]
  {
    var u, v := sp + s, sp[1..] + s;
    assert u[1..] == v;
    var j := WordEnd(v, i);
    var j' := WordEnd(u, i + 1);
    assert j' == j + 1;
    assert u[i + 1..j'] == v[i..j];
  }

  /** Index of the first character `strip` keeps (or |s|). */
  function StripStart(s: string): (i: nat)
    ensures i <= |s|
    ensures forall k | 0 <= k < i :: IsStrippable(s[k])
    ensures i < |s| ==> !IsStrippable(s[i])
  {
    if s == [] || !IsStrippable(s[0]) then 0 else 1 + StripStart(s[1..])
  }

  /** Index just past the last character `strip` keeps, scanning back to `i`. */
  function StripEnd(s: string, i: nat): (j: nat)
    requires i <= |s|
    ensures i <= j <= |s|
    ensures forall k | j <= k < |s| :: IsStrippable(s[k])
    ensures j > i ==> !IsStrippable(s[j - 1])
    decreases |s|
  {
    if |s| == i || !IsStrippable(s[|s| - 1]) then |s| else StripEnd(s[..|s| - 1], i)
  }

  /** `s.strip`: `s` without its leading and trailing whitespace and NULs. */
  function Strip(s: string): (r: string)
    ensures r == [] <==> forall k | 0 <= k < |s| :: IsStrippable(s[k])
    ensures r != [] ==> !IsStrippable(r[0]) && !IsStrippable(r[|r| - 1])
  {
    var i := StripStart(s);
    var j := StripEnd(s, i);
    s[i..j]
  }

  /** `s.start_with?(prefix)`. */
  predicate StartsWith(s: string, prefix: string) {
    |prefix| <= |s| && s[..|prefix|] == prefix
  }

  /** `s.start_with?(p1, p2, ...)`: `s` starts with one of `prefixes`. */
  predicate StartsWithAny(s: string, prefixes: seq<string>) {
    exists i | 0 <= i < |prefixes| :: StartsWith(s, prefixes[i])
  }

  /** `s` starts with `prefix` exactly when it is `prefix` followed by the rest of `s`. */
  lemma StartsWithIff(s: string, prefix: string)
    ensures StartsWith(s, prefix) <==> |prefix| <= |s| && s == prefix + s[|prefix|..]
    ensures StartsWith(prefix + s, prefix)
  {
    assert (prefix + s)[..|prefix|] == prefix;
    if |prefix| <= |s| && s == prefix + s[|prefix|..] {
      assert s[..|prefix|] == (prefix + s[|prefix|..])[..|prefix|];
    }
  }

  /** `s.start_with?(a, b)` holds exactly when `s` starts with `a` or with `b`. */
  lemma StartsWithEither(s: string, a: string, b: string)
    ensures StartsWithAny(s, [a, b]) <==> StartsWith(s, a) || StartsWith(s, b)
  {
    if StartsWith(s, a) { assert StartsWith(s, [a, b][0]); }
    if StartsWith(s, b) { assert StartsWith(s, [a, b][1]); }
  }
}
