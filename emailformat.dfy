/**
 The e-mail shape check both submission endpoints apply, the pattern
 `^[^\s@]+@[^\s@]+\.[^\s@]+$`. The pattern's language is stated as a ghost
 predicate; the check the model uses is written out by hand and proved to
 accept exactly that language.
 */
module EmailFormat {
  import opened JsString

  /** One character of the class `[^\s@]`. */
  predicate PlainChar(c: char) {
    !IsWhitespace(c) && c != '@'
  }

  /** A match of `[^\s@]+`. */
  predicate PlainRun(s: string) {
    s != [] && forall k :: 0 <= k < |s| ==> PlainChar(s[k])
  }

  /** The strings the anchored pattern matches: a run, '@', a run, '.', a run. */
  ghost predicate MatchesPattern(s: string) {
    exists i, j :: 0 <= i < j < |s| && s[i] == '@' && s[j] == '.'
                   && PlainRun(s[..i]) && PlainRun(s[i + 1..j]) && PlainRun(s[j + 1..])
  }

  /** Position of the first c in s, or |s| when there is none. */
  function IndexOf(s: string, c: char): (p: nat)
    ensures p <= |s|
    ensures p < |s| ==> s[p] == c
    ensures forall k :: 0 <= k < p ==> s[k] != c
  {
    if s == [] then 0 else if s[0] == c then 0 else 1 + IndexOf(s[1..], c)
  }

  /** A '.' with at least one character before and after it. */
  predicate HasInnerDot(d: string) {
    exists k :: 0 < k < |d| - 1 && d[k] == '.'
  }

  /** The hand-written check: no whitespace, exactly one '@' with a non-empty
      part before it, and a domain with an inner '.'. */
  predicate IsValidEmail(s: string)
    ensures IsValidEmail(s) ==> 5 <= |s| && NoWhitespace(s) && '@' in s
  {
    && NoWhitespace(s)
    && var p := IndexOf(s, '@');
    && 0 < p < |s|
    && (forall k :: p < k < |s| ==> s[k] != '@')
    && HasInnerDot(s[p + 1..])
  }

  /** Every string the hand-written check accepts matches the pattern. */
  lemma ValidEmailMatches(s: string)
    requires IsValidEmail(s)
    ensures MatchesPattern(s)
  {
    var p := IndexOf(s, '@');
    var d := s[p + 1..];
    var k :| 0 < k < |d| - 1 && d[k] == '.';
    var j := p + 1 + k;
    assert s[j] == '.';
    PlainSlice(s, 0, p);
    PlainSlice(s, p + 1, j);
    PlainSlice(s, j + 1, |s|);
  }

  lemma PlainSlice(s: string, a: nat, b: nat)
    requires a < b <= |s|
    requires forall m :: a <= m < b ==> PlainChar(s[m])
    ensures PlainRun(s[a..b])
  {
  }

  /** Every string the pattern matches passes the hand-written check. */
  lemma PatternIsValidEmail(s: string)
    requires MatchesPattern(s)
    ensures IsValidEmail(s)
  {
    var i, j :| 0 <= i < j < |s| && s[i] == '@' && s[j] == '.'
                && PlainRun(s[..i]) && PlainRun(s[i + 1..j]) && PlainRun(s[j + 1..]);
    assert s[..i] == s[0..i];
    RunInside(s, 0, i);
    RunInside(s, i + 1, j);
    RunInside(s, j + 1, |s|);
    ShapeIsValid(s, i, j);
  }

  /** The positions of the '@' and the '.' of a match, with plain characters
      everywhere else, are what the hand-written check looks for. */
  lemma ShapeIsValid(s: string, i: nat, j: nat)
    requires 0 < i && i + 1 < j && j + 1 < |s| && s[i] == '@' && s[j] == '.'
    requires forall m :: 0 <= m < |s| && m != i && m != j ==> PlainChar(s[m])
    ensures IsValidEmail(s)
  {
    assert NoWhitespace(s) by {
      forall m | 0 <= m < |s| ensures !IsWhitespace(s[m]) {
        if m != i && m != j {
          assert PlainChar(s[m]);
        }
      }
    }
    assert IndexOf(s, '@') == i;
    assert s[i + 1..][j - i - 1] == '.';
  }

  lemma RunInside(s: string, a: nat, b: nat)
    requires a <= b <= |s| && PlainRun(s[a..b])
    ensures forall m :: a <= m < b ==> PlainChar(s[m])
  {
    forall m | a <= m < b ensures PlainChar(s[m]) {
      assert s[m] == s[a..b][m - a];
    }
  }

  /** The hand-written check accepts exactly the strings the pattern matches. */
  lemma ValidEmailIffPattern(s: string)
    ensures IsValidEmail(s) <==> MatchesPattern(s)
  {
    if IsValidEmail(s) {
      ValidEmailMatches(s);
    }
    if MatchesPattern(s) {
      PatternIsValidEmail(s);
    }
  }

  /** An address put together as run, '@', run, '.', run passes the check. */
  lemma ComposedAddressIsValid(local: string, host: string, tld: string)
    requires PlainRun(local) && PlainRun(host) && PlainRun(tld)
    ensures IsValidEmail(local + "@" + host + "." + tld)
  {
    var s := local + "@" + host + "." + tld;
    var i := |local|;
    var j := |local| + 1 + |host|;
    assert s[..i] == local;
    assert s[i + 1..j] == host;
    assert s[j + 1..] == tld;
    assert s[i] == '@' && s[j] == '.';
    assert 0 <= i < j < |s| && s[i] == '@' && s[j] == '.'
           && PlainRun(s[..i]) && PlainRun(s[i + 1..j]) && PlainRun(s[j + 1..]);
    PatternIsValidEmail(s);
  }

  lemma AcceptsPlainAddress()
    ensures IsValidEmail("a@b.co")
  {
    assert PlainRun("a") && PlainRun("b") && PlainRun("co");
    assert "a@b.co" == "a" + "@" + "b" + "." + "co";
    ComposedAddressIsValid("a", "b", "co");
  }

  /** A string without '@' never passes. */
  lemma WithoutAtIsInvalid(s: string)
    requires forall k :: 0 <= k < |s| ==> s[k] != '@'
    ensures !IsValidEmail(s)
  {
    assert IndexOf(s, '@') == |s|;
  }

  lemma RejectsWithoutAt()
    ensures !IsValidEmail("not-an-email")
  {
    WithoutAtIsInvalid("not-an-email");
  }
}
