/** The check the login forms run on submit: the e-mail address must match
    `^[^\s@]+@[^\s@]+\.[^\s@]+$` and the password must be at least six
    characters long. The two failures are reported separately, and the form
    counts as valid only when neither occurs. */
module LoginForm {

  const MinPasswordLength := 6

  /** The characters ECMAScript's `\s` matches: WhiteSpace (tab, vertical tab,
      form feed, space, no-break space, byte order mark and every Unicode
      space separator) and LineTerminator (LF, CR, U+2028, U+2029). */
  predicate IsWhitespace(c: char)
    ensures IsWhitespace(c) ==> c != '@' && c != '.' && c as int <= 0xFEFF
  {
    c == '\t' || c == '\n' || c == '\U{B}' || c == '\U{C}' || c == '\r' || c == ' ' ||
    c == '\U{A0}' || c == '\U{1680}' || ('\U{2000}' <= c <= '\U{200A}') ||
    c == '\U{2028}' || c == '\U{2029}' || c == '\U{202F}' || c == '\U{205F}' ||
    c == '\U{3000}' || c == '\U{FEFF}'
  }

  /** The character class `[^\s@]`. */
  predicate PartChar(c: char)
  {
    !IsWhitespace(c) && c != '@'
  }

  /** `[^\s@]+`: a non-empty run of class characters. */
  predicate Part(t: string)
  {
    |t| > 0 && forall k :: 0 <= k < |t| ==> PartChar(t[k])
  }

  /** The whole-string match of `^[^\s@]+@[^\s@]+\.[^\s@]+$`: some '@' and some
      later '.' cut the address into three parts of class characters. */
  predicate MatchesEmailPattern(s: string)
    ensures MatchesEmailPattern(s) ==> 5 <= |s| && s[0] != '@' && !IsWhitespace(s[|s| - 1])
  {
    exists at, dot :: 0 <= at < dot < |s| && s[at] == '@' && s[dot] == '.' &&
      Part(s[..at]) && Part(s[at + 1..dot]) && Part(s[dot + 1..])
  }

  /** The same rule said plainly: no whitespace; exactly one '@', not first;
      after it a '.' with at least one character on each side. */
  ghost predicate WellFormedEmail(s: string)
  {
    (forall k :: 0 <= k < |s| ==> !IsWhitespace(s[k])) &&
    exists at :: 0 < at < |s| && s[at] == '@' &&
      (forall k :: 0 <= k < |s| && k != at ==> s[k] != '@') &&
      (exists dot :: at + 1 < dot < |s| - 1 && s[dot] == '.')
  }

  /** The pattern and the plain description accept the same addresses. */
  lemma EmailPatternIff(s: string)
    ensures MatchesEmailPattern(s) <==> WellFormedEmail(s)
  {
    if MatchesEmailPattern(s) {
      MatchIsWellFormed(s);
    }
    if WellFormedEmail(s) {
      WellFormedMatches(s);
    }
  }

  lemma MatchIsWellFormed(s: string)
    requires MatchesEmailPattern(s)
    ensures WellFormedEmail(s)
  {
    var at, dot :| 0 <= at < dot < |s| && s[at] == '@' && s[dot] == '.' &&
      Part(s[..at]) && Part(s[at + 1..dot]) && Part(s[dot + 1..]);
    forall k | 0 <= k < |s| ensures !IsWhitespace(s[k]) && (k != at ==> s[k] != '@') {
      if k < at {
        assert s[..at][k] == s[k];
      } else if at < k < dot {
        assert s[at + 1..dot][k - at - 1] == s[k];
      } else if dot < k {
        assert s[dot + 1..][k - dot - 1] == s[k];
      }
    }
    assert at + 1 < dot < |s| - 1;
  }

  lemma WellFormedMatches(s: string)
    requires WellFormedEmail(s)
    ensures MatchesEmailPattern(s)
  {
    var at :| 0 < at < |s| && s[at] == '@' &&
      (forall k :: 0 <= k < |s| && k != at ==> s[k] != '@') &&
      (exists dot :: at + 1 < dot < |s| - 1 && s[dot] == '.');
    var dot :| at + 1 < dot < |s| - 1 && s[dot] == '.';
    assert Part(s[..at]) by {
      forall k | 0 <= k < at ensures PartChar(s[..at][k]) {
        assert s[..at][k] == s[k];
      }
    }
    var domain := s[at + 1..dot];
    assert Part(domain) by {
      forall k | 0 <= k < |domain| ensures PartChar(domain[k]) {
        assert domain[k] == s[at + 1 + k];
      }
    }
    var suffix := s[dot + 1..];
    assert Part(suffix) by {
      forall k | 0 <= k < |suffix| ensures PartChar(suffix[k]) {
        assert suffix[k] == s[dot + 1 + k];
      }
    }
  }

  /** `password.value.length`: JavaScript counts UTF-16 code units, so a
      character outside the Basic Multilingual Plane counts twice. */
  function Utf16Length(s: string): (n: nat)
    ensures |s| <= n <= 2 * |s|
  {
    if |s| == 0 then 0
    else (if s[0] as int > 0xFFFF then 2 else 1) + Utf16Length(s[1..])
  }

  /** For text inside the Basic Multilingual Plane the length is the character count. */
  lemma {:induction false} Utf16LengthBmp(s: string)
    requires forall k :: 0 <= k < |s| ==> s[k] as int <= 0xFFFF
    ensures Utf16Length(s) == |s|
  {
    if |s| > 0 {
      assert forall k :: 0 <= k < |s[1..]| ==> s[1..][k] == s[k + 1];
      Utf16LengthBmp(s[1..]);
    }
  }

  /** Which error messages a submit shows. */
  datatype LoginCheck = LoginCheck(emailError: bool, passwordError: bool)
  {
    /** The handler's `isValid` flag after both checks. */
    predicate IsValid()
    {
      !emailError && !passwordError
    }
  }

  /** The submit handler's two checks. */
  function CheckLogin(email: string, password: string): (r: LoginCheck)
    ensures r.emailError <==> !WellFormedEmail(email)
    ensures r.passwordError <==> Utf16Length(password) < MinPasswordLength
    ensures r.IsValid() <==> WellFormedEmail(email) && Utf16Length(password) >= MinPasswordLength
  {
    EmailPatternIff(email);
    LoginCheck(!MatchesEmailPattern(email), Utf16Length(password) < MinPasswordLength)
  }

  lemma ExampleAddresses()
    ensures CheckLogin("a@b.co", "secret").IsValid()
    ensures CheckLogin("a@b@c.d", "secret").emailError
    ensures CheckLogin("a@b.", "secret").emailError
    ensures CheckLogin("a@b.co", "12345") == LoginCheck(false, true)
  {
    assert "a@b.co"[1] == '@' && "a@b.co"[3] == '.';
    assert "a@b@c.d"[1] == '@' && "a@b@c.d"[3] == '@';
  }
}
