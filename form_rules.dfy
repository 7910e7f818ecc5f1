/** The validation rules the sign-up, sign-in and booking forms give react-hook-form: the
    email pattern `^[A-Z0-9._%+-]+@[A-Z0-9.-]+\.[A-Z]{2,}$` (case-insensitive) written as
    character classes, and the `required`, `minLength` and `validate` rules. A field's
    result is its first failing rule's message, checked in the order required, minLength,
    pattern, validate; minLength and pattern are not checked on an empty value. */
module FormRules {
  import opened Common

  // ---------------------------------------------------------------------------
  // The email pattern
  // ---------------------------------------------------------------------------

  /** `[A-Z]` under the `i` flag: an ASCII letter of either case. */
  predicate IsLetter(c: char) {
    'A' <= c <= 'Z' || 'a' <= c <= 'z'
  }

  predicate IsDigit(c: char) {
    '0' <= c <= '9'
  }

  /** `[A-Z0-9._%+-]`: a character of the part before the '@'. */
  predicate IsLocalChar(c: char) {
    IsLetter(c) || IsDigit(c) || c == '.' || c == '_' || c == '%' || c == '+' || c == '-'
  }

  /** `[A-Z0-9.-]`: a character of the domain before its last dot. */
  predicate IsDomainChar(c: char) {
    IsLetter(c) || IsDigit(c) || c == '.' || c == '-'
  }

  predicate AllLocal(s: string) {
    forall k :: 0 <= k < |s| ==> IsLocalChar(s[k])
  }

  predicate AllDomain(s: string) {
    forall k :: 0 <= k < |s| ==> IsDomainChar(s[k])
  }

  predicate AllLetters(s: string) {
    forall k :: 0 <= k < |s| ==> IsLetter(s[k])
  }

  /** s reads local '@' domain '.' tld with the '@' at i and the '.' at j: a non-empty local
      part, a non-empty domain, and a top-level domain of at least two letters. */
  predicate EmailSplit(s: string, i: int, j: int) {
    && 0 < i && i + 1 < j && j + 2 < |s|
    && s[i] == '@' && s[j] == '.'
    && AllLocal(s[..i]) && AllDomain(s[i + 1..j]) && AllLetters(s[j + 1..])
  }

  /** The pattern matches the whole string: some split of it fits. */
  ghost predicate MatchesEmailPattern(s: string) {
    exists i, j :: EmailSplit(s, i, j)
  }

  /** The first position of c in s, or -1. */
  function IndexOf(s: string, c: char): (i: int)
    ensures -1 <= i < |s|
    ensures 0 <= i ==> s[i] == c
    ensures forall k :: 0 <= k < |s| && (i == -1 || k < i) ==> s[k] != c
    decreases |s|
  {
    if s == [] then -1
    else if s[0] == c then 0
    else
      var r := IndexOf(s[1..], c);
      assert forall k :: 1 <= k < |s| ==> s[k] == s[1..][k - 1];
      if r == -1 then -1 else r + 1
  }

  /** The last position of c in s, or -1. */
  function LastIndexOf(s: string, c: char): (i: int)
    ensures -1 <= i < |s|
    ensures 0 <= i ==> s[i] == c
    ensures forall k :: 0 <= k < |s| && i < k ==> s[k] != c
    decreases |s|
  {
    if s == [] then -1
    else if s[|s| - 1] == c then |s| - 1
    else LastIndexOf(s[..|s| - 1], c)
  }

  /** A direct check of the pattern: the '@' must be the first one, since no character class
      admits '@', and the '.' must be the last one, since the top-level domain is letters only. */
  predicate IsEmail(s: string) {
    EmailSplit(s, IndexOf(s, '@'), LastIndexOf(s, '.'))
  }

  /** The direct check accepts exactly the strings the pattern matches. */
  lemma IsEmailIffPattern(s: string)
    ensures IsEmail(s) <==> MatchesEmailPattern(s)
  {
    if MatchesEmailPattern(s) {
      var i, j :| EmailSplit(s, i, j);
      SplitIsFirstAndLast(s, i, j);
    }
  }

  /** In any split, the '@' is the first '@' and the '.' is the last '.'. */
  lemma SplitIsFirstAndLast(s: string, i: int, j: int)
    requires EmailSplit(s, i, j)
    ensures IndexOf(s, '@') == i && LastIndexOf(s, '.') == j
  {
    forall k | 0 <= k < i
      ensures s[k] != '@'
    {
      assert s[..i][k] == s[k];
    }
    forall k | j < k < |s|
      ensures s[k] != '.'
    {
      assert s[j + 1..][k - j - 1] == s[k];
    }
  }

  /** The pattern accepts "a@b.co" and rejects "a@b.c" (one-letter top-level domain) and
      "ab.com" (no '@'). */
  lemma EmailExamples()
    ensures MatchesEmailPattern("a@b.co")
    ensures !MatchesEmailPattern("a@b.c")
    ensures !MatchesEmailPattern("ab.com")
  {
    assert EmailSplit("a@b.co", 1, 3);
  }

  /** A matching address has exactly one '@': the one its split is made at. */
  lemma SplitHasOneAt(s: string, i: int, j: int, k: int)
    requires EmailSplit(s, i, j) && 0 <= k < |s| && s[k] == '@'
    ensures k == i
  {
  }

  // ---------------------------------------------------------------------------
  // The browser's own check of an `<input type="email">`
  // ---------------------------------------------------------------------------

  predicate IsAlnum(c: char) {
    IsLetter(c) || IsDigit(c)
  }

  /** A character the HTML standard's "valid email address" admits before the '@'. */
  predicate IsHtmlLocalChar(c: char) {
    IsAlnum(c) || c in ".!#$%&'*+/=?^_`{|}~-"
  }

  /** A domain label: one to 63 letters, digits and hyphens, starting and ending with a
      letter or a digit. */
  predicate HtmlLabel(l: string) {
    && 1 <= |l| <= 63
    && (forall k :: 0 <= k < |l| ==> IsAlnum(l[k]) || l[k] == '-')
    && IsAlnum(l[0]) && IsAlnum(l[|l| - 1])
  }

  /** Labels separated by single dots. */
  predicate HtmlDomain(d: string)
    decreases |d|
  {
    var k := IndexOf(d, '.');
    if k == -1 then HtmlLabel(d) else HtmlLabel(d[..k]) && HtmlDomain(d[k + 1..])
  }

  /** The HTML standard's "valid email address": a non-empty run of admitted characters, an
      '@' and a domain. No admitted character is an '@', so the '@' is the first one. */
  predicate HtmlEmail(s: string) {
    var i := IndexOf(s, '@');
    && 0 < i
    && (forall k :: 0 <= k < i ==> IsHtmlLocalChar(s[k]))
    && HtmlDomain(s[i + 1..])
  }

  /** None of the three forms sets `noValidate`, so the browser refuses to submit while an
      email input holds a non-empty value that is not a valid email address; react-hook-form's
      handler does not run then. The empty value is left to the `required` rule. (The value
      is the input's, after the browser has stripped surrounding whitespace.) */
  predicate BrowserAcceptsEmail(value: string) {
    value == "" || HtmlEmail(value)
  }

  /** On an address the pattern matches, the browser adds only the rules on the domain's
      labels: the part before the '@' always passes. */
  lemma PatternMatchBrowserIff(s: string, i: int, j: int)
    requires EmailSplit(s, i, j)
    ensures HtmlEmail(s) <==> HtmlDomain(s[i + 1..])
  {
    SplitIsFirstAndLast(s, i, j);
    forall k | 0 <= k < i
      ensures IsHtmlLocalChar(s[k])
    {
      assert s[..i][k] == s[k];
    }
  }

  /** The pattern admits an empty label between two dots; the browser refuses it. */
  lemma PatternAdmitsDoubleDot()
    ensures MatchesEmailPattern("a@b..co") && !HtmlEmail("a@b..co")
  {
    assert EmailSplit("a@b..co", 1, 4);
    PatternMatchBrowserIff("a@b..co", 1, 4);
    assert "a@b..co"[2..] == "b..co" && IndexOf("b..co", '.') == 1;
    assert "b..co"[2..] == ".co" && IndexOf(".co", '.') == 0;
    assert !HtmlLabel(".co"[..0]);
  }

  /** The pattern admits an empty first label; the browser refuses it. */
  lemma PatternAdmitsLeadingDot()
    ensures MatchesEmailPattern("a@.b.co") && !HtmlEmail("a@.b.co")
  {
    assert EmailSplit("a@.b.co", 1, 4);
    PatternMatchBrowserIff("a@.b.co", 1, 4);
    assert "a@.b.co"[2..] == ".b.co" && IndexOf(".b.co", '.') == 0;
    assert !HtmlLabel(".b.co"[..0]);
  }

  /** The pattern admits a label starting with a hyphen; the browser refuses it. */
  lemma PatternAdmitsLeadingHyphen()
    ensures MatchesEmailPattern("a@-b.co") && !HtmlEmail("a@-b.co")
  {
    assert EmailSplit("a@-b.co", 1, 4);
    PatternMatchBrowserIff("a@-b.co", 1, 4);
    assert "a@-b.co"[2..] == "-b.co" && IndexOf("-b.co", '.') == 2;
    assert !HtmlLabel("-b.co"[..2]);
  }

  /** The browser admits a domain without a dot, which the pattern refuses; both admit
      "a@b.co". */
  lemma BrowserAdmitsDotlessDomain()
    ensures HtmlEmail("a@b") && !MatchesEmailPattern("a@b")
    ensures HtmlEmail("a@b.co") && MatchesEmailPattern("a@b.co")
  {
    assert IndexOf("a@b", '@') == 1 && "a@b"[2..] == "b" && IndexOf("b", '.') == -1;
    assert HtmlLabel("b");
    assert EmailSplit("a@b.co", 1, 3);
    PatternMatchBrowserIff("a@b.co", 1, 3);
    assert "a@b.co"[2..] == "b.co" && IndexOf("b.co", '.') == 1;
    assert "b.co"[..1] == "b" && "b.co"[2..] == "co" && IndexOf("co", '.') == -1;
    assert HtmlLabel("b") && HtmlLabel("co");
  }

  // ---------------------------------------------------------------------------
  // The rules, as react-hook-form applies them
  // ---------------------------------------------------------------------------

  /** `required: message` on a text field: the empty value fails. */
  function Required(value: string, message: string): (err: Option<string>)
    ensures err.Some? <==> value == ""
    ensures err.Some? ==> err.value == message
  {
    if value == "" then Some(message) else None
  }

  /** `required` then `minLength: { value: n, message }`. */
  function RequiredMinLength(value: string, requiredMessage: string, n: nat, lengthMessage: string)
    : (err: Option<string>)
    ensures err.None? <==> value != "" && |value| >= n
    ensures value == "" ==> err == Some(requiredMessage)
    ensures value != "" && |value| < n ==> err == Some(lengthMessage)
  {
    if value == "" then Some(requiredMessage)
    else if |value| < n then Some(lengthMessage)
    else None
  }

  /** `required: 'Email is required'` then `pattern` with 'Invalid email address'. */
  function EmailRule(value: string): (err: Option<string>)
    ensures value == "" ==> err == Some("Email is required")
    ensures value != "" && !IsEmail(value) ==> err == Some("Invalid email address")
    ensures err.None? <==> IsEmail(value)
  {
    if value == "" then Some("Email is required")
    else if !IsEmail(value) then Some("Invalid email address")
    else None
  }

  /** The email rule passes exactly on the addresses the pattern matches. */
  lemma EmailRuleIffPattern(value: string)
    ensures EmailRule(value).None? <==> MatchesEmailPattern(value)
  {
    IsEmailIffPattern(value);
  }

  /** An email field lets its form through exactly when the address both matches the pattern
      and is a valid email address for the browser. */
  lemma EmailFieldPassesIff(value: string)
    ensures BrowserAcceptsEmail(value) && EmailRule(value).None? <==>
            MatchesEmailPattern(value) && HtmlEmail(value)
  {
    EmailRuleIffPattern(value);
  }
}
