/**
 * The session and points store (js/auth.js): login and registration with their input checks,
 * logout, the session reads, and the additive points credit.
 */
module Auth {
  import opened Common
  import opened Storage

  /** The rejections `loginUser` and `registerUser` report. */
  datatype AuthError = MissingField | InvalidEmail | PasswordMismatch | PasswordTooShort

  const MinPasswordLength: nat := 6

  /** A character matched by the regular-expression class `\s` (ECMAScript white space and line terminators). */
  predicate IsJsWhitespace(c: char)
  {
    c == ' ' || c == '\t' || c == '\n' || c == '\U{000B}' || c == '\U{000C}' || c == '\r'
    || c == '\U{00A0}' || c == '\U{1680}' || ('\U{2000}' <= c <= '\U{200A}')
    || c == '\U{2028}' || c == '\U{2029}' || c == '\U{202F}' || c == '\U{205F}'
    || c == '\U{3000}' || c == '\U{FEFF}'
  }

  /** Every character is in the class `[^\s@]`. */
  predicate Plain(s: string)
  {
    forall i :: 0 <= i < |s| ==> !IsJsWhitespace(s[i]) && s[i] != '@'
  }

  /**
   * The language of `/^[^\s@]+@[^\s@]+\.[^\s@]+$/`: a non-empty plain local part, `@`, a
   * non-empty plain run, `.`, and a non-empty plain run.
   */
  ghost predicate MatchesEmailPattern(s: string)
  {
    exists i, j :: 0 < i && i + 1 < j && j + 1 < |s| && s[i] == '@' && s[j] == '.'
      && Plain(s[..i]) && Plain(s[i + 1..j]) && Plain(s[j + 1..])
  }

  /** A `.` that is neither the first nor the last character. */
  predicate HasInnerDot(d: string)
  {
    exists k :: 1 <= k < |d| - 1 && d[k] == '.'
  }

  /**
   * `validateEmail`: split at the first `@`; the local part must be non-empty and plain, the
   * domain plain with an inner dot.
   */
  function ValidateEmail(s: string): (ok: bool)
    ensures ok ==> |s| >= 5
    ensures ok ==> 0 < IndexOf(s, '@') < |s| - 3
  {
    var a := IndexOf(s, '@');
    0 < a < |s| && Plain(s[..a]) && Plain(s[a + 1..]) && HasInnerDot(s[a + 1..])
  }

  /** `validateEmail` accepts exactly the strings the regular expression matches. */
  lemma ValidateEmailMatchesPattern(s: string)
    ensures ValidateEmail(s) <==> MatchesEmailPattern(s)
  {
    if ValidateEmail(s) {
      ValidEmailMatches(s);
    }
    if MatchesEmailPattern(s) {
      var i, j :| 0 < i && i + 1 < j && j + 1 < |s| && s[i] == '@' && s[j] == '.'
        && Plain(s[..i]) && Plain(s[i + 1..j]) && Plain(s[j + 1..]);
      MatchIsValidEmail(s, i, j);
    }
  }

  /** The split the validator finds is a match of the pattern. */
  lemma ValidEmailMatches(s: string)
    requires ValidateEmail(s)
    ensures MatchesEmailPattern(s)
  {
    var a := IndexOf(s, '@');
    var d := s[a + 1..];
    var k :| 1 <= k < |d| - 1 && d[k] == '.';
    var j := a + 1 + k;
    assert s[a + 1..j] == d[..k];
    assert s[j + 1..] == d[k + 1..];
    assert s[j] == d[k];
    assert 0 < a && a + 1 < j && j + 1 < |s| && s[a] == '@' && s[j] == '.'
      && Plain(s[..a]) && Plain(s[a + 1..j]) && Plain(s[j + 1..]);
  }

  /** Any match of the pattern splits at the first `@`, where the validator looks. */
  lemma MatchIsValidEmail(s: string, i: int, j: int)
    requires 0 < i && i + 1 < j && j + 1 < |s| && s[i] == '@' && s[j] == '.'
    requires Plain(s[..i]) && Plain(s[i + 1..j]) && Plain(s[j + 1..])
    ensures ValidateEmail(s)
  {
    var a := IndexOf(s, '@');
    assert a == i;
    var d := s[a + 1..];
    assert d == s[i + 1..j] + [s[j]] + s[j + 1..];
    assert d[j - a - 1] == '.';
  }

  /** An address the validator accepts has exactly one `@`, a non-empty local part and no white space. */
  lemma ValidEmailShape(s: string)
    requires ValidateEmail(s)
    ensures exists i :: 0 < i < |s| - 1 && s[i] == '@' && (forall m :: 0 <= m < |s| && m != i ==> s[m] != '@')
    ensures forall m :: 0 <= m < |s| ==> !IsJsWhitespace(s[m])
  {
    var a := IndexOf(s, '@');
    var d := s[a + 1..];
    forall m | 0 <= m < |s| && m != a ensures s[m] != '@' && !IsJsWhitespace(s[m]) {
      if m < a {
        assert s[m] == s[..a][m];
      } else {
        assert s[m] == d[m - a - 1];
      }
    }
  }

  /** `email.split('@')[0]`: the text before the first `@`. */
  function NameFromEmail(email: string): (name: string)
    ensures |name| <= |email| && name == email[..|name|]
    ensures forall m :: 0 <= m < |name| ==> name[m] != '@'
    ensures |name| < |email| ==> email[|name|] == '@'
  {
    email[..IndexOf(email, '@')]
  }

  /** A validated address yields a non-empty display name without white space. */
  lemma ValidEmailHasName(email: string)
    requires ValidateEmail(email)
    ensures |NameFromEmail(email)| > 0 && Plain(NameFromEmail(email))
    ensures email == NameFromEmail(email) + "@" + email[|NameFromEmail(email)| + 1..]
  {
  }

  /** The checks of `loginUser`, in order: both fields present, then the address format. */
  function LoginCheck(email: string, password: string): (err: Option<AuthError>)
    ensures err.None? <==> email != "" && password != "" && ValidateEmail(email)
    ensures email == "" || password == "" ==> err == Some(MissingField)
    ensures err == Some(MissingField) ==> email == "" || password == ""
    ensures err.Some? ==> err.value == MissingField || err.value == InvalidEmail
  {
    if email == "" || password == "" then Some(MissingField)
    else if !ValidateEmail(email) then Some(InvalidEmail)
    else None
  }

  /** The session record a successful login stores. */
  function LoginRecord(email: string, id: string, now: string): User
  {
    User(id, email, NameFromEmail(email), Some(now), None, Some(0.0), None, None)
  }

  /**
   * The checks of `registerUser`, in order: all four fields present, then matching
   * passwords, then the minimum length. The address format is not checked.
   */
  function RegisterCheck(name: string, email: string, password: string, confirm: string): (err: Option<AuthError>)
    ensures err.None? <==> name != "" && email != "" && password != "" && confirm != ""
                           && password == confirm && |password| >= MinPasswordLength
    ensures name == "" || email == "" || password == "" || confirm == "" ==> err == Some(MissingField)
    ensures err == Some(MissingField) ==> name == "" || email == "" || password == "" || confirm == ""
    ensures err == Some(PasswordMismatch) <==> name != "" && email != "" && password != "" && confirm != ""
                                               && password != confirm
    ensures err == Some(PasswordTooShort) ==> password == confirm
    ensures err != Some(InvalidEmail)
  {
    if name == "" || email == "" || password == "" || confirm == "" then Some(MissingField)
    else if password != confirm then Some(PasswordMismatch)
    else if |password| < MinPasswordLength then Some(PasswordTooShort)
    else None
  }

  /** The session record a successful registration stores. */
  function RegisterRecord(name: string, email: string, id: string, now: string): User
  {
    User(id, email, name, None, Some(now), Some(0.0), None, None)
  }

  /**
   * `isLoggedIn`: some text is stored under the session key, whether or not it is a usable
   * record.
   */
  function IsLoggedIn(session: Slot<User>): (ok: bool)
    ensures ok <==> session != Empty
    ensures session.Holds? ==> ok
  {
    !session.Empty?
  }

  /**
   * `getCurrentUser`: no user (`None`) when the entry is absent or its text is empty or parses
   * to a falsy value. The code returns null for absent or empty text and for `null`, and the
   * parsed value itself for `false`, `0` or `""`; every caller tests the result for truthiness,
   * so all of these read as no user. `JSON.parse` throws on unreadable text.
   */
  function CurrentUser(session: Slot<User>): (r: Outcome<Option<User>>)
    ensures !IsLoggedIn(session) ==> r == Returns(None)
    ensures r == Returns(None) <==> session.Empty? || session.HoldsFalsy?
    ensures r.Throws? <==> session.Unreadable?
    ensures session.Holds? ==> r == Returns(Some(session.value))
  {
    match session
    case Empty => Returns(None)
    case Holds(u) => Returns(Some(u))
    case Unreadable => Throws
    case HoldsFalsy => Returns(None)
  }

  /**
   * The two session reads disagree exactly on falsy text: `isLoggedIn` is true while
   * `getCurrentUser` gives no user (null or a falsy value).
   */
  lemma SessionReadsDisagree(session: Slot<User>)
    ensures IsLoggedIn(session) && CurrentUser(session) == Returns(None) <==> session.HoldsFalsy?
  {
  }

  /** `getUserPoints`: the stored points, 0 without a session or without a points field. */
  function GetUserPoints(session: Slot<User>): (r: Outcome<real>)
    ensures !IsLoggedIn(session) ==> r == Returns(0.0)
    ensures CurrentUser(session) == Returns(None) ==> r == Returns(0.0)
    ensures r.Throws? <==> CurrentUser(session).Throws?
    ensures session.Holds? ==> r == Returns(PointsOf(session.value)) && (session.value.points.None? ==> r == Returns(0.0))
  {
    match CurrentUser(session)
    case Throws => Throws
    case Returns(None) => Returns(0.0)
    case Returns(Some(u)) => Returns(PointsOf(u))
  }

  /** The record after crediting `n` points from `source` at time `now`. */
  function Credit(u: User, n: real, source: string, now: string): (r: User)
    ensures PointsOf(r) == PointsOf(u) + n
    ensures r.lastPointsSource == Some(source) && r.lastPointsUpdate == Some(now)
    ensures r.(points := u.points, lastPointsUpdate := u.lastPointsUpdate, lastPointsSource := u.lastPointsSource) == u
  {
    u.(points := Some(PointsOf(u) + n), lastPointsUpdate := Some(now), lastPointsSource := Some(source))
  }

  /** Credits add up: crediting twice adds both amounts, so one award must be credited once. */
  lemma CreditIsAdditive(u: User, a: real, b: real, s1: string, s2: string, t1: string, t2: string)
    ensures PointsOf(Credit(Credit(u, a, s1, t1), b, s2, t2)) == PointsOf(u) + a + b
    ensures Credit(Credit(u, a, s1, t1), b, s2, t2) == Credit(u, a + b, s2, t2)
  {
  }

  /** `loginUser`: on success overwrite the session with a fresh record worth 0 points. */
  method LoginUser(store: LocalStorage, email: string, password: string, id: string, now: string) returns (ok: bool)
    modifies store
    ensures ok <==> LoginCheck(email, password).None?
    ensures store.lastContribution == old(store.lastContribution)
    ensures store.user == if ok then Holds(LoginRecord(email, id, now)) else old(store.user)
    ensures ok ==> (CurrentUser(store.user) == Returns(Some(User(id, email, NameFromEmail(email), Some(now), None, Some(0.0), None, None)))
                    && GetUserPoints(store.user) == Returns(0.0))
  {
    if email == "" || password == "" {
      return false;
    }
    if !ValidateEmail(email) {
      return false;
    }
    store.user := Holds(LoginRecord(email, id, now));
    return true;
  }

  /** `registerUser`: on success overwrite the session with the named record worth 0 points. */
  method RegisterUser(store: LocalStorage, name: string, email: string, password: string, confirm: string,
                      id: string, now: string) returns (ok: bool)
    modifies store
    ensures ok <==> RegisterCheck(name, email, password, confirm).None?
    ensures store.lastContribution == old(store.lastContribution)
    ensures store.user == if ok then Holds(RegisterRecord(name, email, id, now)) else old(store.user)
    ensures ok ==> GetUserPoints(store.user) == Returns(0.0)
  {
    if name == "" || email == "" || password == "" || confirm == "" {
      return false;
    }
    if password != confirm {
      return false;
    }
    if |password| < MinPasswordLength {
      return false;
    }
    store.user := Holds(RegisterRecord(name, email, id, now));
    return true;
  }

  /** `logoutUser`: remove the session entry; afterwards nobody is logged in and points read 0. */
  method LogoutUser(store: LocalStorage)
    modifies store
    ensures store.user == Empty && store.lastContribution == old(store.lastContribution)
    ensures CurrentUser(store.user) == Returns(None) && !IsLoggedIn(store.user)
    ensures GetUserPoints(store.user) == Returns(0.0)
  {
    store.user := Empty;
  }

  /**
   * `addUserPoints`: without a session, or with falsy session text, return false and write
   * nothing; otherwise add `n` to the stored points and stamp the update. Unreadable session
   * text makes it throw.
   */
  method AddUserPoints(store: LocalStorage, n: real, source: string, now: string) returns (r: Outcome<bool>)
    modifies store
    ensures store.lastContribution == old(store.lastContribution)
    ensures old(store.user).Empty? || old(store.user).HoldsFalsy? ==> r == Returns(false) && store.user == old(store.user)
    ensures old(store.user).Unreadable? ==> r == Throws && store.user == old(store.user)
    ensures old(store.user).Holds? ==>
      (r == Returns(true)
       && store.user == Holds(Credit(old(store.user).value, n, source, now))
       && GetUserPoints(store.user) == Returns(PointsOf(old(store.user).value) + n))
  {
    var current := CurrentUser(store.user);
    match current
    case Throws =>
      return Throws;
    case Returns(None) =>
      return Returns(false);
    case Returns(Some(u)) =>
      store.user := Holds(Credit(u, n, source, now));
      return Returns(true);
  }
}
