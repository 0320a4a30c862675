/**
 * The sign-in screen: the email and password checks, the comparison with the demo account of
 * the selected role, the demo-fill button and the role switch.
 */
module Login {
  import opened Wrappers
  import opened Text
  import opened Records
  import opened Forms

  /** The keys of the login form's error map. */
  datatype Field = Email | Password | General

  datatype Credentials = Credentials(email: string, password: string)

  const EmptyCredentials := Credentials("", "")

  /** `demoCredentials[userType]`. */
  function DemoCredentials(role: Role): Credentials {
    match role
    case Donor => Credentials("donor@example.com", "donor123")
    case Seeker => Credentials("seeker@example.com", "seeker123")
  }

  /** The name the signed-in user is given. */
  function DisplayName(role: Role): string {
    if role == Donor then "Food Donor" else "Food Seeker"
  }

  /** A part of an address: non-empty, with no whitespace and no `@`. */
  predicate Plain(s: string) {
    |s| > 0 && forall k :: 0 <= k < |s| ==> !IsWhitespace(s[k]) && s[k] != '@'
  }

  /** `s` reads `local@domain.suffix` with the `@` at `i` and the `.` at `j`. */
  predicate SplitsAt(s: string, i: int, j: int) {
    0 <= i < j < |s| && s[i] == '@' && s[j] == '.'
    && Plain(s[..i]) && Plain(s[i + 1..j]) && Plain(s[j + 1..])
  }

  /** The pattern `^[^\s@]+@[^\s@]+\.[^\s@]+$`: some choice of `@` and `.` splits `s` this way. */
  ghost predicate MatchesEmailPattern(s: string) {
    exists i, j :: SplitsAt(s, i, j)
  }

  /** The position of the first `c` in `s`, or `|s|` when there is none. */
  function IndexOf(s: string, c: char): (r: nat)
    ensures r <= |s|
    ensures r < |s| ==> s[r] == c
    ensures forall k :: 0 <= k < r ==> s[k] != c
  {
    if s == [] then 0 else if s[0] == c then 0 else 1 + IndexOf(s[1..], c)
  }

  /**
   * The regular expression test, computed: no whitespace anywhere, exactly one `@` with text
   * before it, and a `.` after it with text on both sides.
   */
  predicate IsValidEmail(s: string) {
    var i := IndexOf(s, '@');
    && (forall k :: 0 <= k < |s| ==> !IsWhitespace(s[k]))
    && 0 < i
    && i + 3 <= |s|
    && '@' !in s[i + 1..]
    && '.' in s[i + 2..|s| - 1]
  }

  lemma AtAndDotAreNotSpace()
    ensures !IsWhitespace('@') && !IsWhitespace('.')
  {
  }

  lemma ValidEmailMatches(s: string)
    requires IsValidEmail(s)
    ensures MatchesEmailPattern(s)
  {
    var i := IndexOf(s, '@');
    var tail := s[i + 2..|s| - 1];
    var d :| 0 <= d < |tail| && tail[d] == '.';
    var j := i + 2 + d;
    assert s[j] == '.';
    assert forall k :: i + 1 <= k < |s| ==> s[k] != '@' by {
      forall k | i + 1 <= k < |s|
        ensures s[k] != '@'
      {
        assert s[k] == s[i + 1..][k - i - 1];
      }
    }
    assert Plain(s[..i]);
    assert Plain(s[i + 1..j]);
    assert Plain(s[j + 1..]);
    assert SplitsAt(s, i, j);
  }

  lemma MatchingEmailValid(s: string)
    requires MatchesEmailPattern(s)
    ensures IsValidEmail(s)
  {
    var i, j :| SplitsAt(s, i, j);
    AtAndDotAreNotSpace();
    assert forall k :: 0 <= k < i ==> s[k] == s[..i][k];
    assert forall k :: i < k < j ==> s[k] == s[i + 1..j][k - i - 1];
    assert forall k :: j < k < |s| ==> s[k] == s[j + 1..][k - j - 1];
    assert IndexOf(s, '@') == i;
    assert forall k :: i < k < |s| ==> s[k] != '@';
    assert '@' !in s[i + 1..];
    assert s[i + 2..|s| - 1][j - i - 2] == '.';
  }

  /** The computed test and the regular expression accept the same addresses. */
  lemma EmailPatternComputed(s: string)
    ensures IsValidEmail(s) <==> MatchesEmailPattern(s)
  {
    if IsValidEmail(s) {
      ValidEmailMatches(s);
    }
    if MatchesEmailPattern(s) {
      MatchingEmailValid(s);
    }
  }

  /** The email's error message, if any. */
  function EmailError(email: string): (r: Option<string>)
    ensures r == Some("Email is required") <==> email == ""
    ensures r.None? <==> MatchesEmailPattern(email)
  {
    EmailPatternComputed(email);
    if email == "" then Some("Email is required")
    else if !IsValidEmail(email) then Some("Please enter a valid email")
    else None
  }

  /** The password's error message, if any; the length is counted in characters. */
  function PasswordError(password: string): (r: Option<string>)
    ensures r == Some("Password is required") <==> password == ""
    ensures r.None? <==> |password| >= 6
  {
    if password == "" then Some("Password is required")
    else if |password| < 6 then Some("Password must be at least 6 characters")
    else None
  }

  /** `validateForm`'s `newErrors`: one entry per failing field, checked independently. */
  function FormErrors(c: Credentials): (e: map<Field, string>)
    ensures Email in e <==> EmailError(c.email).Some?
    ensures Password in e <==> PasswordError(c.password).Some?
    ensures Email in e ==> Some(e[Email]) == EmailError(c.email)
    ensures Password in e ==> Some(e[Password]) == PasswordError(c.password)
    ensures General !in e
  {
    var withEmail := if EmailError(c.email).Some? then map[Email := EmailError(c.email).value] else map[];
    if PasswordError(c.password).Some? then withEmail[Password := PasswordError(c.password).value]
    else withEmail
  }

  /** The form passes exactly when the email matches the pattern and the password has 6 characters. */
  lemma FormAccepted(c: Credentials)
    ensures FormErrors(c) == map[] <==> MatchesEmailPattern(c.email) && |c.password| >= 6
  {
    if FormErrors(c) != map[] {
      var k :| k in FormErrors(c);
    }
  }

  /** The credential check inside the timer: only the selected role's demo pair signs in. */
  function Authenticate(role: Role, c: Credentials, now: int): (u: Option<User>)
    ensures u.Some? <==> c == DemoCredentials(role)
    ensures u.Some? ==> u.value == User(role, c.email, DisplayName(role), now)
  {
    var demo := DemoCredentials(role);
    if c.email == demo.email && c.password == demo.password
    then Some(User(role, c.email, DisplayName(role), now))
    else None
  }

  /** The other role's demo pair is refused. */
  lemma OtherRoleRefused(role: Role, other: Role, now: int)
    requires role != other
    ensures Authenticate(role, DemoCredentials(other), now).None?
  {
    assert DemoCredentials(Donor).email[0] != DemoCredentials(Seeker).email[0];
  }

  /** Text of lower-case letters and digits is a plain address part. */
  lemma LettersArePlain(s: string)
    requires |s| > 0 && forall k :: 0 <= k < |s| ==> 'a' <= s[k] <= 'z' || '0' <= s[k] <= '9'
    ensures Plain(s)
  {
  }

  /** `local@example.com` splits after `local` and after `example`. */
  lemma ExampleAddress(local: string)
    requires |local| > 0 && forall k :: 0 <= k < |local| ==> 'a' <= local[k] <= 'z'
    ensures MatchesEmailPattern(local + "@example.com")
  {
    var domain := "@example.com";
    var s := local + domain;
    var i := |local|;
    assert s[..i] == local && s[i..] == domain;
    assert domain[1..8] == "example" && domain[9..] == "com";
    assert s[i + 1..i + 8] == s[i..][1..8];
    assert s[i + 9..] == s[i..][9..];
    LettersArePlain(local);
    LettersArePlain("example");
    LettersArePlain("com");
    assert SplitsAt(s, i, i + 8);
  }

  /** Credentials of the shape `local@example.com` with a 6-character password pass the form. */
  lemma ExampleCredentialsPass(c: Credentials, local: string)
    requires c.email == local + "@example.com" && |c.password| >= 6
    requires |local| > 0 && forall k :: 0 <= k < |local| ==> 'a' <= local[k] <= 'z'
    ensures FormErrors(c) == map[]
  {
    ExampleAddress(local);
    FormAccepted(c);
  }

  /** Each demo pair passes the form's checks and signs in as its own role. */
  lemma DemoSignsIn(role: Role, now: int)
    ensures FormErrors(DemoCredentials(role)) == map[]
    ensures Authenticate(role, DemoCredentials(role), now)
            == Some(User(role, DemoCredentials(role).email, DisplayName(role), now))
  {
    match role
    case Donor => ExampleCredentialsPass(DemoCredentials(role), "donor");
    case Seeker => ExampleCredentialsPass(DemoCredentials(role), "seeker");
  }

  /** An edit of one of the two fields. */
  datatype Input = EmailInput(email: string) | PasswordInput(password: string)

  function FieldName(input: Input): Field {
    if input.EmailInput? then Email else Password
  }

  function ApplyInput(c: Credentials, input: Input): (r: Credentials)
    ensures input.EmailInput? ==> r == c.(email := input.email)
    ensures input.PasswordInput? ==> r == c.(password := input.password)
  {
    match input
    case EmailInput(e) => c.(email := e)
    case PasswordInput(p) => c.(password := p)
  }

  const InvalidCredentials := "Invalid credentials. Please use demo credentials from README."

  /** The sign-in screen's state. */
  class LoginScreen {
    var userType: Role
    var formData: Credentials
    var errors: map<Field, string>
    var isLoading: bool

    constructor ()
      ensures userType == Donor && formData == EmptyCredentials && errors == map[] && !isLoading
    {
      userType := Donor;
      formData := EmptyCredentials;
      errors := map[];
      isLoading := false;
    }

    /** `handleInputChange`: the field takes the new text and its error, if any, is blanked. */
    method HandleInputChange(input: Input)
      modifies this`formData, this`errors
      ensures formData == ApplyInput(old(formData), input)
      ensures errors == ClearFieldError(old(errors), FieldName(input))
    {
      formData := ApplyInput(formData, input);
      if FieldName(input) in errors && errors[FieldName(input)] != "" {
        errors := errors[FieldName(input) := ""];
      }
    }

    /** `validateForm`: the error map is rebuilt from the two checks, email first. */
    method ValidateForm() returns (ok: bool)
      modifies this`errors
      ensures errors == FormErrors(formData)
      ensures ok <==> MatchesEmailPattern(formData.email) && |formData.password| >= 6
    {
      var newErrors: map<Field, string> := map[];
      if formData.email == "" {
        newErrors := newErrors[Email := "Email is required"];
      } else if !IsValidEmail(formData.email) {
        newErrors := newErrors[Email := "Please enter a valid email"];
      }
      if formData.password == "" {
        newErrors := newErrors[Password := "Password is required"];
      } else if |formData.password| < 6 {
        newErrors := newErrors[Password := "Password must be at least 6 characters"];
      }
      errors := newErrors;
      FormAccepted(formData);
      ok := |newErrors| == 0;
    }

    /**
     * `handleSubmit`, with the timer's callback run at clock reading `now`: an invalid form
     * only shows its errors; a valid one signs in with the selected role's demo pair or shows
     * the general error alone. The screen is not loading afterwards either way.
     */
    method HandleSubmit(now: int) returns (user: Option<User>)
      modifies this`errors, this`isLoading
      ensures user == (if FormErrors(formData) == map[] then Authenticate(userType, formData, now) else None)
      ensures FormErrors(formData) != map[] ==> errors == FormErrors(formData) && isLoading == old(isLoading)
      ensures FormErrors(formData) == map[] && user.None? ==> errors == map[General := InvalidCredentials]
      ensures FormErrors(formData) == map[] ==> !isLoading
      ensures user.Some? ==> errors == map[]
    {
      var ok := ValidateForm();
      FormAccepted(formData);
      if !ok {
        return None;
      }
      isLoading := true;
      user := Authenticate(userType, formData, now);
      if user.None? {
        errors := map[General := InvalidCredentials];
      }
      isLoading := false;
    }

    /** `fillDemoCredentials`: the selected role's demo pair, with no errors shown. */
    method FillDemoCredentials()
      modifies this`formData, this`errors
      ensures formData == DemoCredentials(userType) && errors == map[]
      ensures FormErrors(formData) == map[]
    {
      formData := DemoCredentials(userType);
      errors := map[];
      DemoSignsIn(userType, 0);
    }

    /** A role button: the role changes and the form and its errors are emptied. */
    method SelectUserType(role: Role)
      modifies this`userType, this`formData, this`errors
      ensures userType == role && formData == EmptyCredentials && errors == map[]
    {
      userType := role;
      formData := EmptyCredentials;
      errors := map[];
    }
  }
}
