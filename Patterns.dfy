/**
 * The two regular expressions the sign-in and sign-up forms test, written out as the
 * substring predicates they decide, and the e-mail check both forms share.
 *
 * `RegExp.prototype.test` succeeds when the pattern matches at SOME position, so each
 * predicate is an existential over the positions of a match.
 */
module Patterns {
  import opened Wrappers
  import opened Text

  /** Every character of `s[lo..hi]` is matched by `\S`. */
  predicate NonBlank(s: string, lo: int, hi: int)
    requires 0 <= lo && hi <= |s|
  {
    forall k | lo <= k < hi :: !IsWhitespace(s[k])
  }

  /**
   * `\S+@\S+\.\S+` matches `s[i..e]`, with the `@` at `a` and the `.` at `d`:
   * three non-empty runs of non-blank characters around the two literals.
   */
  predicate EmailMatchAt(s: string, i: int, a: int, d: int, e: int)
  {
    && 0 <= i < a && a + 1 < d && d + 1 < e <= |s|
    && s[a] == '@' && s[d] == '.'
    && NonBlank(s, i, a) && NonBlank(s, a + 1, d) && NonBlank(s, d + 1, e)
  }

  /** `/\S+@\S+\.\S+/.test(s)`. */
  predicate EmailPattern(s: string)
  {
    exists i, a, d, e | 0 <= i < |s| && 0 <= a < |s| && 0 <= d < |s| && 0 <= e <= |s| ::
      EmailMatchAt(s, i, a, d, e)
  }

  /**
   * The same test seen from the two literals: an `@` at `a` with a non-blank character
   * before it, a non-empty non-blank run up to a `.` at `d`, and a non-blank character after it.
   */
  predicate EmailWindowAt(s: string, a: int, d: int)
  {
    && 0 < a && a + 1 < d && d + 1 < |s|
    && s[a] == '@' && s[d] == '.'
    && !IsWhitespace(s[a - 1]) && !IsWhitespace(s[d + 1]) && NonBlank(s, a + 1, d)
  }

  lemma EmailMatchGivesWindow(s: string, i: int, a: int, d: int, e: int)
    requires EmailMatchAt(s, i, a, d, e)
    ensures EmailWindowAt(s, a, d)
  {
    assert !IsWhitespace(s[a - 1]);
    assert !IsWhitespace(s[d + 1]);
  }

  lemma EmailWindowGivesMatch(s: string, a: int, d: int)
    requires EmailWindowAt(s, a, d)
    ensures EmailMatchAt(s, a - 1, a, d, d + 2)
  {
  }

  /** The pattern matches exactly when such a window exists. */
  lemma EmailPatternWindow(s: string)
    ensures EmailPattern(s) <==> exists a, d | 0 <= a < |s| && 0 <= d < |s| :: EmailWindowAt(s, a, d)
  {
    if EmailPattern(s) {
      var i, a, d, e :| 0 <= i < |s| && 0 <= a < |s| && 0 <= d < |s| && 0 <= e <= |s|
        && EmailMatchAt(s, i, a, d, e);
      EmailMatchGivesWindow(s, i, a, d, e);
    }
    if exists a, d | 0 <= a < |s| && 0 <= d < |s| :: EmailWindowAt(s, a, d) {
      var a, d :| 0 <= a < |s| && 0 <= d < |s| && EmailWindowAt(s, a, d);
      EmailWindowGivesMatch(s, a, d);
    }
  }

  /** The test searches: blank text before a valid-looking address does not stop a match. */
  lemma EmailPatternSearches()
    ensures EmailPattern("my mail b@c.in")
    ensures !EmailPattern("") && !EmailPattern("@b.in") && !EmailPattern("a@b.")
  {
    assert EmailMatchAt("my mail b@c.in", 8, 9, 11, 14);
    EmailPatternWindow("@b.in");
    EmailPatternWindow("a@b.");
  }

  /** The three character classes of the password look-aheads. */
  datatype CharClass = Lower | Upper | Digit

  predicate InClass(k: CharClass, c: char)
  {
    match k
    case Lower => 'a' <= c <= 'z'
    case Upper => 'A' <= c <= 'Z'
    case Digit => '0' <= c <= '9'
  }

  /** `(?=.*[k])` succeeds at position `p`: a `k` character follows without a line break before it. */
  predicate LookaheadAt(s: string, p: int, k: CharClass)
    requires 0 <= p <= |s|
  {
    exists i | p <= i < |s| :: InClass(k, s[i]) && forall j | p <= j < i :: !IsLineTerminator(s[j])
  }

  /** `/(?=.*[a-z])(?=.*[A-Z])(?=.*\d)/.test(s)`: some position sees all three classes ahead on its line. */
  predicate HasLowerUpperDigit(s: string)
  {
    exists p | 0 <= p <= |s| :: LookaheadAt(s, p, Lower) && LookaheadAt(s, p, Upper) && LookaheadAt(s, p, Digit)
  }

  predicate ContainsClass(s: string, k: CharClass)
  {
    exists i | 0 <= i < |s| :: InClass(k, s[i])
  }

  lemma LookaheadContains(s: string, p: int, k: CharClass)
    requires 0 <= p <= |s| && LookaheadAt(s, p, k)
    ensures ContainsClass(s, k)
  {
    var i :| p <= i < |s| && InClass(k, s[i]) && forall j | p <= j < i :: !IsLineTerminator(s[j]);
    assert 0 <= i < |s| && InClass(k, s[i]);
  }

  /** The classes must be found on one line: a line break between them defeats the test. */
  lemma PasswordClassesAcrossLines()
    ensures !HasLowerUpperDigit("ab\nC1")
  {
    var s := "ab\nC1";
    forall p | 0 <= p <= |s|
      ensures !(LookaheadAt(s, p, Lower) && LookaheadAt(s, p, Upper))
    {
      if p <= 2 {
        assert !LookaheadAt(s, p, Upper) by {
          forall i | p <= i < |s| && InClass(Upper, s[i])
            ensures exists j | p <= j < i :: IsLineTerminator(s[j])
          {
            assert i == 3 && IsLineTerminator(s[2]);
          }
        }
      } else {
        assert !LookaheadAt(s, p, Lower);
      }
    }
  }

  /**
   * On a single line (the only kind of value a password field holds), the look-ahead test
   * means what it says: a lowercase letter, an uppercase letter and a digit each occur.
   */
  lemma SingleLinePassword(s: string)
    requires forall j :: 0 <= j < |s| ==> !IsLineTerminator(s[j])
    ensures HasLowerUpperDigit(s) <==>
      ContainsClass(s, Lower) && ContainsClass(s, Upper) && ContainsClass(s, Digit)
  {
    if HasLowerUpperDigit(s) {
      var p :| 0 <= p <= |s| && LookaheadAt(s, p, Lower) && LookaheadAt(s, p, Upper) && LookaheadAt(s, p, Digit);
      LookaheadContains(s, p, Lower);
      LookaheadContains(s, p, Upper);
      LookaheadContains(s, p, Digit);
    }
    if ContainsClass(s, Lower) && ContainsClass(s, Upper) && ContainsClass(s, Digit) {
      assert LookaheadAt(s, 0, Lower) && LookaheadAt(s, 0, Upper) && LookaheadAt(s, 0, Digit);
    }
  }

  const EmailRequired := "Email is required"
  const EmailInvalid := "Please enter a valid email address"

  /**
   * The e-mail check of both forms: required first, then the pattern. It reports nothing
   * exactly when the pattern matches.
   */
  function EmailCheck(email: string): (r: Option<string>)
    ensures r.None? <==> EmailPattern(email)
    ensures email == "" ==> r == Some(EmailRequired)
    ensures email != "" && !EmailPattern(email) ==> r == Some(EmailInvalid)
  {
    if email == "" then Some(EmailRequired)
    else if !EmailPattern(email) then Some(EmailInvalid)
    else None
  }

  /** A validation result with `key` set to the check's message when the check fails. */
  function WithError(errors: map<string, string>, key: string, check: Option<string>): map<string, string>
  {
    if check.Some? then errors[key := check.value] else errors
  }

  /** One more check keeps every earlier message and adds its own under `key` when it fails. */
  lemma WithErrorFacts(errors: map<string, string>, key: string, check: Option<string>)
    ensures var e := WithError(errors, key, check);
      && (key in e <==> key in errors || check.Some?)
      && (check.Some? ==> e[key] == check.value)
      && (forall k :: k != key ==> (k in e <==> k in errors))
      && (forall k :: k != key && k in errors ==> e[k] == errors[k])
      && e.Keys <= errors.Keys + {key}
  {
  }

  /**
   * Five checks under five distinct keys, applied in order to an empty result: each key is
   * present exactly when its check fails, with that check's message, and nothing else is.
   */
  lemma FiveChecks(k1: string, c1: Option<string>, k2: string, c2: Option<string>, k3: string, c3: Option<string>,
                   k4: string, c4: Option<string>, k5: string, c5: Option<string>)
    requires k1 != k2 && k1 != k3 && k1 != k4 && k1 != k5 && k2 != k3
    requires k2 != k4 && k2 != k5 && k3 != k4 && k3 != k5 && k4 != k5
    ensures var e := WithError(WithError(WithError(WithError(WithError(map[], k1, c1), k2, c2), k3, c3), k4, c4), k5, c5);
      && e.Keys <= {k1, k2, k3, k4, k5}
      && (e == map[] <==> c1.None? && c2.None? && c3.None? && c4.None? && c5.None?)
      && (k1 in e <==> c1.Some?) && (c1.Some? ==> e[k1] == c1.value)
      && (k2 in e <==> c2.Some?) && (c2.Some? ==> e[k2] == c2.value)
      && (k3 in e <==> c3.Some?) && (c3.Some? ==> e[k3] == c3.value)
      && (k4 in e <==> c4.Some?) && (c4.Some? ==> e[k4] == c4.value)
      && (k5 in e <==> c5.Some?) && (c5.Some? ==> e[k5] == c5.value)
  {
    var e1 := WithError(map[], k1, c1);
    WithErrorFacts(map[], k1, c1);
    var e2 := WithError(e1, k2, c2);
    WithErrorFacts(e1, k2, c2);
    var e3 := WithError(e2, k3, c3);
    WithErrorFacts(e2, k3, c3);
    var e4 := WithError(e3, k4, c4);
    WithErrorFacts(e3, k4, c4);
    var e5 := WithError(e4, k5, c5);
    WithErrorFacts(e4, k5, c5);
    if e5 == map[] {
      assert k1 !in e5 && k2 !in e5 && k3 !in e5 && k4 !in e5 && k5 !in e5;
    }
    if c1.Some? {
      assert k1 in e5;
    } else if c2.Some? {
      assert k2 in e5;
    } else if c3.Some? {
      assert k3 in e5;
    } else if c4.Some? {
      assert k4 in e5;
    } else if c5.Some? {
      assert k5 in e5;
    }
  }
}
