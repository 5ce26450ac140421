/**
  * The registration page: an ordered chain of checks on the form, the first
  * failing one giving the message shown, and then a loading / success / error
  * protocol around two backend calls (create the account, then log in with it).
  * The backend calls are outside the model; their outcome is an input.
  */
module Registration {
  import opened Text

  datatype Form = Form(email: string, password: string, confirmPassword: string, firstName: string, lastName: string)

  const AllFieldsRequired := "All fields are required"
  const InvalidEmail := "Please enter a valid email address"
  const PasswordTooShort := "Password must be at least 8 characters"
  const PasswordMismatch := "Passwords do not match"
  const RegistrationFailed := "Registration failed"

  const MinPasswordLength := 8

  // ----- The email pattern ^[^\s@]+@[^\s@]+\.[^\s@]+$ -----

  /** `[^\s@]`: any character except whitespace and '@'. */
  predicate PatternChar(c: char) {
    c != '@' && !IsJsWhitespace(c)
  }

  predicate AllPatternChars(s: string) {
    forall k :: 0 <= k < |s| ==> PatternChar(s[k])
  }

  /**
    * The pattern's meaning: `e` is `a + "@" + b + "." + c` with `a`, `b`, `c`
    * non-empty runs of `[^\s@]`, the '@' at index `i` and the '.' at index `j`.
    */
  ghost predicate SplitsAt(e: string, i: int, j: int) {
    && 0 < i && i + 1 < j && j + 1 < |e|
    && e[i] == '@' && e[j] == '.'
    && AllPatternChars(e[..i]) && AllPatternChars(e[i + 1..j]) && AllPatternChars(e[j + 1..])
  }

  ghost predicate MatchesEmailPattern(e: string) {
    exists i, j :: SplitsAt(e, i, j)
  }

  /** The index of the first `c` in `s`, if any. */
  function IndexOf(s: string, c: char): (r: Option<nat>)
    ensures r.Some? ==> r.value < |s| && s[r.value] == c && c !in s[..r.value]
    ensures r.None? ==> c !in s
    decreases |s|
  {
    if s == [] then None
    else if s[0] == c then Some(0)
    else
      match IndexOf(s[1..], c)
      case None => None
      case Some(k) =>
        assert s[..k + 1] == [s[0]] + s[1..][..k];
        Some(k + 1)
  }

  /** What follows the '@': `[^\s@]+\.[^\s@]+`, a run with a '.' strictly inside it. */
  predicate DomainMatches(d: string) {
    |d| >= 3 && AllPatternChars(d) && '.' in d[1..|d| - 1]
  }

  /** The matcher: find the '@', check what precedes it and what follows it. */
  predicate IsValidEmail(e: string) {
    match IndexOf(e, '@')
    case None => false
    case Some(i) => i > 0 && AllPatternChars(e[..i]) && DomainMatches(e[i + 1..])
  }

  /** Every string the matcher accepts is a string of the pattern. */
  lemma MatcherSound(e: string)
    requires IsValidEmail(e)
    ensures MatchesEmailPattern(e)
  {
    var i := IndexOf(e, '@').value;
    var d := e[i + 1..];
    var inner := d[1..|d| - 1];
    var m :| 0 <= m < |inner| && inner[m] == '.';
    var j := i + 2 + m;
    assert e[j] == d[1 + m] == '.';
    assert e[i + 1..j] == d[..1 + m];
    assert e[j + 1..] == d[2 + m..];
    assert SplitsAt(e, i, j);
  }

  /** Every string of the pattern is accepted by the matcher. */
  lemma MatcherComplete(e: string, i: int, j: int)
    requires SplitsAt(e, i, j)
    ensures IsValidEmail(e)
  {
    assert e[i] in e;
    assert '@' !in e[..i];
    assert forall r :: 0 <= r < i ==> e[r] == e[..i][r];
    assert IndexOf(e, '@') == Some(i);
    var d := e[i + 1..];
    assert d == e[i + 1..j] + ['.'] + e[j + 1..];
    assert d[1..|d| - 1][j - i - 2] == '.';
  }

  /** The matcher accepts exactly the strings of the pattern. */
  lemma EmailMatcherCorrect(e: string)
    ensures IsValidEmail(e) <==> MatchesEmailPattern(e)
  {
    if IsValidEmail(e) {
      MatcherSound(e);
    }
    if MatchesEmailPattern(e) {
      var i, j :| SplitsAt(e, i, j);
      MatcherComplete(e, i, j);
    }
  }

  /**
    * The shape of an accepted email: no whitespace, exactly one '@', not at
    * the start, and a '.' after it with at least one character on each side.
    */
  ghost predicate EmailShape(e: string) {
    && (forall k :: 0 <= k < |e| ==> !IsJsWhitespace(e[k]))
    && multiset(e)['@'] == 1
    && exists i, j :: 0 < i && i + 1 < j < |e| - 1 && e[i] == '@' && e[j] == '.'
  }

  lemma PatternHasShape(e: string, i: int, j: int)
    requires SplitsAt(e, i, j)
    ensures EmailShape(e)
  {
    var rest := e[i + 1..];
    assert rest == e[i + 1..j] + ['.'] + e[j + 1..];
    assert '@' !in e[..i] && '@' !in rest;
    assert e == e[..i] + ['@'] + rest;
    forall k | 0 <= k < |e| ensures !IsJsWhitespace(e[k]) {
      if k < i {
        assert e[k] == e[..i][k];
      } else if i < k < j {
        assert e[k] == e[i + 1..j][k - i - 1];
      } else if j < k {
        assert e[k] == e[j + 1..][k - j - 1];
      }
    }
  }

  lemma ShapeHasPattern(e: string, i: int, j: int)
    requires forall k :: 0 <= k < |e| ==> !IsJsWhitespace(e[k])
    requires multiset(e)['@'] == 1
    requires 0 < i && i + 1 < j < |e| - 1 && e[i] == '@' && e[j] == '.'
    ensures SplitsAt(e, i, j)
  {
    assert e == e[..i] + [e[i]] + e[i + 1..];
    assert multiset(e)['@'] == multiset(e[..i])['@'] + 1 + multiset(e[i + 1..])['@'];
    assert '@' !in e[..i] && '@' !in e[i + 1..];
    forall k | 0 <= k < |e| && k != i ensures PatternChar(e[k]) {
      if k < i {
        assert e[k] == e[..i][k];
      } else {
        assert e[k] == e[i + 1..][k - i - 1];
      }
    }
  }

  /** The matcher accepts exactly the strings of that shape. */
  lemma AcceptedEmailShape(e: string)
    ensures IsValidEmail(e) <==> EmailShape(e)
  {
    EmailMatcherCorrect(e);
    if MatchesEmailPattern(e) {
      var i, j :| SplitsAt(e, i, j);
      PatternHasShape(e, i, j);
    }
    if EmailShape(e) {
      var i, j :| 0 < i && i + 1 < j < |e| - 1 && e[i] == '@' && e[j] == '.';
      ShapeHasPattern(e, i, j);
    }
  }

  // ----- The validation chain -----

  /** `password.length`: JavaScript counts UTF-16 code units, two for a character beyond U+FFFF. */
  function Utf16Length(s: string): (n: nat)
    ensures |s| <= n <= 2 * |s|
    decreases |s|
  {
    if s == [] then 0 else (if s[0] as int > 0xFFFF then 2 else 1) + Utf16Length(s[1..])
  }

  /** `!email || !password || !firstName || !lastName` is false; the confirmation is not part of it. */
  predicate FieldsFilled(f: Form) {
    f.email != "" && f.password != "" && f.firstName != "" && f.lastName != ""
  }

  /** The message of the first check that fails, or `None` when all pass. */
  function ValidationError(f: Form): (r: Option<string>)
    ensures r == None <==>
      FieldsFilled(f) && IsValidEmail(f.email) && Utf16Length(f.password) >= MinPasswordLength
      && f.password == f.confirmPassword
    ensures r == Some(AllFieldsRequired) <==> !FieldsFilled(f)
    ensures r == Some(InvalidEmail) <==> FieldsFilled(f) && !IsValidEmail(f.email)
    ensures r == Some(PasswordTooShort) <==>
      FieldsFilled(f) && IsValidEmail(f.email) && Utf16Length(f.password) < MinPasswordLength
    ensures r == Some(PasswordMismatch) <==>
      FieldsFilled(f) && IsValidEmail(f.email) && Utf16Length(f.password) >= MinPasswordLength
      && f.password != f.confirmPassword
  {
    if !FieldsFilled(f) then Some(AllFieldsRequired)
    else if !IsValidEmail(f.email) then Some(InvalidEmail)
    else if Utf16Length(f.password) < MinPasswordLength then Some(PasswordTooShort)
    else if f.password != f.confirmPassword then Some(PasswordMismatch)
    else None
  }

  /** An empty confirmation is reported as a mismatch, never as a missing field. */
  lemma EmptyConfirmationIsMismatch(f: Form)
    requires FieldsFilled(f) && IsValidEmail(f.email) && Utf16Length(f.password) >= MinPasswordLength
    requires f.confirmPassword == ""
    ensures ValidationError(f) == Some(PasswordMismatch)
  {
  }

  // ----- The page -----

  /** How the two awaited backend calls end. */
  datatype BackendOutcome =
    | RegisterRejected                  // the account creation call throws
    | LoginRejected                     // the account exists, the password login throws
    | LoggedIn(serializedTokens: string)  // `JSON.stringify(tokens)` of the login's answer

  datatype FormField = FirstName | LastName | Email | Password | ConfirmPassword

  function WithField(f: Form, field: FormField, value: string): (g: Form)
    ensures field == Email ==> g == f.(email := value)
    ensures field == Password ==> g == f.(password := value)
    ensures field == ConfirmPassword ==> g == f.(confirmPassword := value)
    ensures field == FirstName ==> g == f.(firstName := value)
    ensures field == LastName ==> g == f.(lastName := value)
  {
    match field
    case Email => f.(email := value)
    case Password => f.(password := value)
    case ConfirmPassword => f.(confirmPassword := value)
    case FirstName => f.(firstName := value)
    case LastName => f.(lastName := value)
  }

  class RegistrationPage {
    var email: string
    var password: string
    var confirmPassword: string
    var firstName: string
    var lastName: string
    var loading: bool
    var error: Option<string>
    var success: bool
    /** The browser's `localStorage` entry "tokens". */
    var storedTokens: Option<string>

    function CurrentForm(): Form
      reads this
    {
      Form(email, password, confirmPassword, firstName, lastName)
    }

    constructor (stored: Option<string>)
      ensures CurrentForm() == Form("", "", "", "", "")
      ensures !loading && error == None && !success && storedTokens == stored
    {
      email, password, confirmPassword, firstName, lastName := "", "", "", "", "";
      loading, error, success := false, None, false;
      storedTokens := stored;
    }

    /** An input's `onChange`; the inputs are disabled while loading. */
    method ChangeField(field: FormField, value: string)
      requires !loading
      modifies this
      ensures CurrentForm() == WithField(old(CurrentForm()), field, value)
      ensures loading == old(loading) && error == old(error) && success == old(success)
      ensures storedTokens == old(storedTokens)
    {
      match field
      case Email => email := value;
      case Password => password := value;
      case ConfirmPassword => confirmPassword := value;
      case FirstName => firstName := value;
      case LastName => lastName := value;
    }

    /**
      * `handleRegister` up to its first `await`: the error is cleared, the
      * checks run in order, and only when all pass does loading start and the
      * backend get called. The Register button is not rendered while loading.
      */
    method BeginRegister() returns (callsBackend: bool)
      requires !loading
      modifies this
      ensures callsBackend <==> ValidationError(old(CurrentForm())) == None
      ensures error == ValidationError(old(CurrentForm()))
      ensures loading == callsBackend
      ensures success == old(success) && storedTokens == old(storedTokens)
      ensures CurrentForm() == old(CurrentForm())
    {
      error := None;
      if email == "" || password == "" || firstName == "" || lastName == "" {
        error := Some(AllFieldsRequired);
        return false;
      }
      if !IsValidEmail(email) {
        error := Some(InvalidEmail);
        return false;
      }
      if Utf16Length(password) < MinPasswordLength {
        error := Some(PasswordTooShort);
        return false;
      }
      if password != confirmPassword {
        error := Some(PasswordMismatch);
        return false;
      }
      loading := true;
      callsBackend := true;
    }

    /**
      * The rest of `handleRegister`, once the backend has answered: tokens are
      * stored and success shown only after both calls succeed; any failure
      * shows "Registration failed"; loading ends either way.
      */
    method FinishRegister(outcome: BackendOutcome)
      requires loading
      modifies this
      ensures !loading
      ensures outcome.LoggedIn? ==>
        storedTokens == Some(outcome.serializedTokens) && success && error == old(error)
      ensures !outcome.LoggedIn? ==>
        error == Some(RegistrationFailed) && success == old(success) && storedTokens == old(storedTokens)
      ensures CurrentForm() == old(CurrentForm())
    {
      match outcome {
        case LoggedIn(tokens) =>
          storedTokens := Some(tokens);
          success := true;
        case _ =>
          error := Some(RegistrationFailed);
      }
      loading := false;
    }
  }
}
