/** The two form predicates of the application's validators file, written
    out from their regular expressions. */
module Validators {
  import opened Text

  /** The character classes tested by the password rules: `[A-Z]`, `[a-z]`,
      `\d` and `[\W_]` (equivalently `[^A-Za-z0-9]`). */
  datatype CharClass = Upper | Lower | Digit | Special

  predicate InClass(c: char, cls: CharClass) {
    match cls
    case Upper => IsUpper(c)
    case Lower => IsLower(c)
    case Digit => IsDigit(c)
    case Special => !IsAsciiAlnum(c)
  }

  /** `/[class]/.test(s)`: some character of `s` is in the class. */
  predicate HasClass(s: string, cls: CharClass) {
    exists k :: 0 <= k < |s| && InClass(s[k], cls)
  }

  lemma HasClassAppend(s: string, t: string, cls: CharClass)
    requires HasClass(s, cls)
    ensures HasClass(s + t, cls)
  {
    var k :| 0 <= k < |s| && InClass(s[k], cls);
    assert (s + t)[k] == s[k];
  }

  predicate NonSpaceRun(s: string, from: int, to: int)
    requires 0 <= from <= to <= |s|
  {
    forall k :: from <= k < to ==> !IsSpace(s[k])
  }

  /** One match of `\S+@\S+\.\S+`: `s[b..at]` and `s[at+1..dot]` and
      `s[dot+1..e]` are non-empty runs of non-white-space characters, with
      '@' at `at` and '.' at `dot`. */
  predicate EmailSpan(s: string, b: int, at: int, dot: int, e: int) {
    0 <= b < at && at + 1 < dot && dot + 1 < e <= |s|
    && NonSpaceRun(s, b, at) && s[at] == '@'
    && NonSpaceRun(s, at + 1, dot) && s[dot] == '.'
    && NonSpaceRun(s, dot + 1, e)
  }

  /** `validateEmail`: the unanchored pattern matches somewhere in `s`. */
  predicate ValidateEmail(s: string) {
    exists b, at, dot, e :: 0 <= b < at < dot < e <= |s| && EmailSpan(s, b, at, dot, e)
  }

  /** The shortest match: a non-white-space character, '@', non-white-space
      characters (at least one), '.', and a non-white-space character. */
  predicate EmailCoreAt(s: string, at: int, dot: int) {
    1 <= at && at + 1 < dot && dot + 1 < |s|
    && !IsSpace(s[at - 1]) && s[at] == '@'
    && NonSpaceRun(s, at + 1, dot) && s[dot] == '.'
    && !IsSpace(s[dot + 1])
  }

  /** `validateEmail(s)` holds exactly when `s` contains the shortest match. */
  lemma ValidateEmailIff(s: string)
    ensures ValidateEmail(s) <==> exists at, dot :: 0 <= at < dot < |s| && EmailCoreAt(s, at, dot)
  {
    if ValidateEmail(s) {
      var b, at, dot, e :| 0 <= b < at < dot < e <= |s| && EmailSpan(s, b, at, dot, e);
      assert EmailCoreAt(s, at, dot);
    }
    if exists at, dot :: 0 <= at < dot < |s| && EmailCoreAt(s, at, dot) {
      var at, dot :| 0 <= at < dot < |s| && EmailCoreAt(s, at, dot);
      assert EmailSpan(s, at - 1, at, dot, dot + 2);
    }
  }

  /** The pattern is not anchored: text around a valid address, white space
      included, keeps it valid. */
  lemma ValidateEmailInContext(p: string, s: string, q: string)
    requires ValidateEmail(s)
    ensures ValidateEmail(p + s + q)
  {
    ValidateEmailIff(s);
    var at, dot :| 0 <= at < dot < |s| && EmailCoreAt(s, at, dot);
    var t := p + s + q;
    var n := |p|;
    assert t[n + at - 1] == s[at - 1] && t[n + at] == s[at];
    assert t[n + dot] == s[dot] && t[n + dot + 1] == s[dot + 1];
    forall k | n + at + 1 <= k < n + dot
      ensures !IsSpace(t[k])
    {
      assert t[k] == s[k - n];
    }
    assert EmailCoreAt(t, n + at, n + dot);
    ValidateEmailIff(t);
  }

  /** Without an '@' followed, two or more positions later, by a '.', no
      address is valid. */
  lemma ValidateEmailNeedsAtThenDot(s: string)
    requires forall at, dot :: 0 <= at < dot < |s| && s[at] == '@' && s[dot] == '.' ==> dot < at + 2
    ensures !ValidateEmail(s)
  {
  }

  lemma ValidateEmailNeedsAt(s: string)
    requires forall k :: 0 <= k < |s| ==> s[k] != '@'
    ensures !ValidateEmail(s)
  {
    ValidateEmailNeedsAtThenDot(s);
  }

  /** `(?=.*[class])` at the start: a character of the class occurs before
      any line terminator. */
  predicate LookaheadFinds(s: string, cls: CharClass) {
    exists k :: 0 <= k < |s| && InClass(s[k], cls) && NoLineTerminator(s[..k])
  }

  predicate NoLineTerminator(s: string) {
    forall k :: 0 <= k < |s| ==> !IsLineTerminator(s[k])
  }

  /** `validatePassword`: `^(?=.*[A-Z])(?=.*[a-z])(?=.*\d)(?=.*[\W_]).{8,}$`.
      Without the `m` flag, `^` and `$` anchor to the whole string, and `.`
      consumes UTF-16 code units other than line terminators. */
  predicate ValidatePassword(s: string) {
    LookaheadFinds(s, Upper) && LookaheadFinds(s, Lower)
    && LookaheadFinds(s, Digit) && LookaheadFinds(s, Special)
    && NoLineTerminator(s) && JsLength(s) >= 8
  }

  /** The anchored `.{8,}` makes each lookahead a plain "contains": a valid
      password is 8 or more code units long, has no line terminator, and has
      an upper-case letter, a lower-case letter, a digit and a character
      outside `[A-Za-z0-9]` ('_' counts). */
  lemma ValidatePasswordIff(s: string)
    ensures ValidatePassword(s) <==>
      JsLength(s) >= 8 && NoLineTerminator(s)
      && HasClass(s, Upper) && HasClass(s, Lower) && HasClass(s, Digit) && HasClass(s, Special)
  {
    if NoLineTerminator(s) {
      forall cls: CharClass | HasClass(s, cls) ensures LookaheadFinds(s, cls) {
        var k :| 0 <= k < |s| && InClass(s[k], cls);
        assert NoLineTerminator(s[..k]);
      }
    }
  }
}
