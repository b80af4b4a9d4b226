/**
 * The profile form's field validators. Each returns None when the field is
 * acceptable and Some(message) for the first check that fails; the form
 * validator collects the messages into a map keyed by field.
 *
 * `\s` in the patterns and `trim` are modelled by Text.IsSpace (ASCII
 * whitespace); `\d`, `[a-z]` and `[A-Z]` are ASCII in JavaScript as well.
 */
module Validation {
  import opened Wrappers
  import opened Text
  import opened Seqs

  const EmailRequired := "Email is required"
  const EmailInvalid := "Invalid email format"
  const UsernameRequired := "Username is required"
  const UsernameTooShort := "Username must be at least 3 characters"
  const UsernameTooLong := "Username must be less than 20 characters"
  const PhoneRequired := "Phone number is required"
  const PhoneTooFewDigits := "Phone number must be at least 10 digits"
  const PhoneInvalid := "Invalid phone number format"
  const PasswordRequired := "Password is required"
  const PasswordTooShort := "Password must be at least 8 characters"
  const PasswordNoLower := "Password must contain at least one lowercase letter"
  const PasswordNoUpper := "Password must contain at least one uppercase letter"
  const PasswordNoDigit := "Password must contain at least one number"
  const PasswordsDiffer := "Passwords do not match"

  // ---------------------------------------------------------------- email

  /** The character class `[^\s@]`. */
  predicate Plain(c: char) {
    !IsSpace(c) && c != '@'
  }

  /** `[^\s@]+` matches all of `s`. */
  predicate PlainRun(s: string) {
    s != [] && forall k :: 0 <= k < |s| ==> Plain(s[k])
  }

  /** `^[^\s@]+@[^\s@]+\.[^\s@]+$` matches `s` with its '@' at `i` and its literal '.' at `j`. */
  predicate EmailMatchAt(s: string, i: int, j: int) {
    && 0 <= i < j < |s|
    && s[i] == '@' && s[j] == '.'
    && PlainRun(s[..i]) && PlainRun(s[i + 1..j]) && PlainRun(s[j + 1..])
  }

  /** The email pattern matches `s` (it is anchored at both ends, so some split must cover all of it). */
  predicate EmailPattern(s: string)
    ensures EmailPattern(s) ==> '@' in s && '.' in s && |s| >= 5
  {
    exists i, j | 0 <= i < j < |s| :: EmailMatchAt(s, i, j)
  }

  /** Text the pattern matches is never blank: its '@' is not white space. */
  lemma PatternNotBlank(s: string)
    ensures EmailPattern(s) ==> !IsBlank(s)
  {
    if EmailPattern(s) {
      var i, j :| 0 <= i < j < |s| && EmailMatchAt(s, i, j);
      assert !IsSpace(s[i]);
    }
  }

  /** validateEmail: 'Email is required' when blank, otherwise 'Invalid email format' unless the pattern matches. */
  function ValidateEmail(email: string): (r: Option<string>)
    ensures IsBlank(email) ==> r == Some(EmailRequired)
    ensures !IsBlank(email) ==> (r.None? || r == Some(EmailInvalid))
    ensures r.None? <==> EmailPattern(email)
  {
    PatternNotBlank(email);
    if IsBlank(email) then Some(EmailRequired)
    else if !EmailPattern(email) then Some(EmailInvalid)
    else None
  }

  /** The number of times `c` occurs in `s`. */
  function Occurrences(s: string, c: char): nat {
    multiset(s)[c]
  }

  /** Two different positions holding `c` make at least two occurrences. */
  lemma {:induction false} TwoOccurrences(s: string, i: int, k: int, c: char)
    requires 0 <= i < k < |s| && s[i] == c && s[k] == c
    ensures Occurrences(s, c) >= 2
  {
    assert s == s[..k] + s[k..];
    assert s[i] == s[..k][i];
    assert s[k] == s[k..][0];
    assert multiset(s) == multiset(s[..k]) + multiset(s[k..]);
  }

  /**
   * The pattern in plain words: no whitespace, exactly one '@' with
   * something before it, and a '.' after the '@' with at least one
   * character on each side of it.
   */
  predicate EmailShape(s: string) {
    && (forall k :: 0 <= k < |s| ==> !IsSpace(s[k]))
    && Occurrences(s, '@') == 1
    && exists i, j | 0 < i && i + 1 < j < |s| - 1 :: s[i] == '@' && s[j] == '.'
  }

  lemma {:induction false} PatternHasShape(s: string, i: int, j: int)
    requires EmailMatchAt(s, i, j)
    ensures EmailShape(s)
  {
    var a, b, c := s[..i], s[i + 1..j], s[j + 1..];
    assert s == a + [s[i]] + b + [s[j]] + c;
    forall k | 0 <= k < |s| ensures !IsSpace(s[k]) {
      if k < i { assert s[k] == a[k]; }
      else if i < k < j { assert s[k] == b[k - i - 1]; }
      else if k > j { assert s[k] == c[k - j - 1]; }
    }
    assert '@' !in a && '@' !in b && '@' !in c;
    assert multiset(s) == multiset(a) + multiset{'@'} + multiset(b) + multiset{'.'} + multiset(c);
    assert 0 < i && i + 1 < j < |s| - 1;
  }

  lemma {:induction false} ShapeHasPattern(s: string)
    requires EmailShape(s)
    ensures EmailPattern(s)
  {
    var i, j :| 0 < i && i + 1 < j < |s| - 1 && s[i] == '@' && s[j] == '.';
    forall k | 0 <= k < |s| && k != i ensures Plain(s[k]) {
      if s[k] == '@' {
        if k < i { TwoOccurrences(s, k, i, '@'); } else { TwoOccurrences(s, i, k, '@'); }
      }
    }
    var a, b, c := s[..i], s[i + 1..j], s[j + 1..];
    forall k | 0 <= k < |b| ensures Plain(b[k]) {
      assert b[k] == s[i + 1 + k];
    }
    forall k | 0 <= k < |c| ensures Plain(c[k]) {
      assert c[k] == s[j + 1 + k];
    }
    assert EmailMatchAt(s, i, j);
  }

  /** An email is accepted exactly when it has the plain-words shape. */
  lemma {:induction false} EmailAcceptedIffShape(email: string)
    ensures ValidateEmail(email).None? <==> EmailShape(email)
  {
    if EmailPattern(email) {
      var i, j :| 0 <= i < j < |email| && EmailMatchAt(email, i, j);
      PatternHasShape(email, i, j);
    }
    if EmailShape(email) {
      ShapeHasPattern(email);
    }
  }

  // ------------------------------------------------------------- username

  /** validateUsername: blank, then shorter than 3, then longer than 20, counted on the untrimmed text. */
  function ValidateUsername(username: string): (r: Option<string>)
    ensures r.None? <==> !IsBlank(username) && 3 <= |username| <= 20
    ensures IsBlank(username) ==> r == Some(UsernameRequired)
    ensures !IsBlank(username) && |username| < 3 ==> r == Some(UsernameTooShort)
    ensures !IsBlank(username) && |username| > 20 ==> r == Some(UsernameTooLong)
  {
    if IsBlank(username) then Some(UsernameRequired)
    else if |username| < 3 then Some(UsernameTooShort)
    else if |username| > 20 then Some(UsernameTooLong)
    else None
  }

  // ---------------------------------------------------------------- phone

  /** `phone.replace(/\D/g, '')`: the digits of `s` in order. */
  function NumericOnly(s: string): (r: string)
    ensures forall k :: 0 <= k < |r| ==> IsDigit(r[k])
    ensures forall c :: IsDigit(c) ==> multiset(r)[c] == multiset(s)[c]
  {
    var r := Filter(IsDigit, s);
    assert forall c :: IsDigit(c) ==> multiset(r)[c] == multiset(s)[c] by {
      forall c | IsDigit(c) ensures multiset(r)[c] == multiset(s)[c] {
        FilterCount(IsDigit, s, c);
      }
    }
    assert forall k :: 0 <= k < |r| ==> IsDigit(r[k]) by {
      forall k | 0 <= k < |r| ensures IsDigit(r[k]) {
        assert r[k] in r;
      }
    }
    r
  }

  /** The character class `[\d\s\-\+\(\)]`. */
  predicate PhoneChar(c: char) {
    IsDigit(c) || IsSpace(c) || c == '-' || c == '+' || c == '(' || c == ')'
  }

  /** `^[\d\s\-\+\(\)]+$` matches `s`. */
  predicate PhonePattern(s: string) {
    s != [] && forall k :: 0 <= k < |s| ==> PhoneChar(s[k])
  }

  /** Text that is blank has no digits. */
  lemma {:induction false} BlankHasNoDigits(s: string)
    requires IsBlank(s)
    ensures NumericOnly(s) == []
  {
    if s != [] {
      assert !IsDigit(s[0]) by {
        assert IsSpace(s[0]);
      }
      BlankHasNoDigits(s[1..]);
    }
  }

  /** validatePhone: blank, then fewer than 10 digits, then a character outside the allowed class. */
  function ValidatePhone(phone: string): (r: Option<string>)
    ensures r.None? <==> |NumericOnly(phone)| >= 10 && PhonePattern(phone)
    ensures IsBlank(phone) ==> r == Some(PhoneRequired)
    ensures !IsBlank(phone) && |NumericOnly(phone)| < 10 ==> r == Some(PhoneTooFewDigits)
    ensures |NumericOnly(phone)| >= 10 && !PhonePattern(phone) ==> r == Some(PhoneInvalid)
  {
    if IsBlank(phone) then
      BlankHasNoDigits(phone);
      Some(PhoneRequired)
    else if |NumericOnly(phone)| < 10 then Some(PhoneTooFewDigits)
    else if !PhonePattern(phone) then Some(PhoneInvalid)
    else None
  }

  // ------------------------------------------------------------- password

  predicate HasLower(s: string) {
    exists k | 0 <= k < |s| :: IsLower(s[k])
  }

  predicate HasUpper(s: string) {
    exists k | 0 <= k < |s| :: IsUpper(s[k])
  }

  predicate HasDigit(s: string) {
    exists k | 0 <= k < |s| :: IsDigit(s[k])
  }

  /** validatePassword: empty, then shorter than 8, then no lowercase, no uppercase, no digit. */
  function ValidatePassword(password: string): (r: Option<string>)
    ensures r.None? <==> |password| >= 8 && HasLower(password) && HasUpper(password) && HasDigit(password)
    ensures password == [] ==> r == Some(PasswordRequired)
    ensures 0 < |password| < 8 ==> r == Some(PasswordTooShort)
    ensures |password| >= 8 && !HasLower(password) ==> r == Some(PasswordNoLower)
    ensures |password| >= 8 && HasLower(password) && !HasUpper(password) ==> r == Some(PasswordNoUpper)
    ensures |password| >= 8 && HasLower(password) && HasUpper(password) && !HasDigit(password) ==> r == Some(PasswordNoDigit)
  {
    if password == [] then Some(PasswordRequired)
    else if |password| < 8 then Some(PasswordTooShort)
    else if !HasLower(password) then Some(PasswordNoLower)
    else if !HasUpper(password) then Some(PasswordNoUpper)
    else if !HasDigit(password) then Some(PasswordNoDigit)
    else None
  }

  /** validatePasswordMatch: an error exactly when the two strings differ. */
  function ValidatePasswordMatch(password: string, confirmPassword: string): (r: Option<string>)
    ensures r.None? <==> password == confirmPassword
    ensures r.Some? ==> r.value == PasswordsDiffer
  {
    if password != confirmPassword then Some(PasswordsDiffer) else None
  }

  // ----------------------------------------------------------------- form

  datatype ProfileField = Username | Email | Phone | Password | ConfirmPassword

  /** The validated part of ProfileData; the picture is not checked. */
  datatype ProfileData = ProfileData(username: string, email: string, phone: string, password: string,
                                     confirmPassword: string, profilePicture: Option<string>)

  /** The validator behind each key of the error map. */
  function FieldCheck(p: ProfileData, f: ProfileField): Option<string> {
    match f
    case Username => ValidateUsername(p.username)
    case Email => ValidateEmail(p.email)
    case Phone => ValidatePhone(p.phone)
    case Password => ValidatePassword(p.password)
    case ConfirmPassword => ValidatePasswordMatch(p.password, p.confirmPassword)
  }

  /** The form passes every check. */
  predicate FormValid(p: ProfileData) {
    forall f: ProfileField :: FieldCheck(p, f).None?
  }

  /**
   * validateProfileForm: a key is present exactly when its validator
   * fails, holding that validator's message, so the map is empty exactly
   * when every field passes.
   */
  method ValidateProfileForm(p: ProfileData) returns (errors: map<ProfileField, string>)
    ensures forall f :: f in errors <==> FieldCheck(p, f).Some?
    ensures forall f :: f in errors ==> errors[f] == FieldCheck(p, f).value
    ensures errors == map[] <==> FormValid(p)
  {
    errors := map[];
    var usernameError := ValidateUsername(p.username);
    assert usernameError == FieldCheck(p, Username);
    if usernameError.Some? { errors := errors[Username := usernameError.value]; }
    var emailError := ValidateEmail(p.email);
    assert emailError == FieldCheck(p, Email);
    if emailError.Some? { errors := errors[Email := emailError.value]; }
    var phoneError := ValidatePhone(p.phone);
    assert phoneError == FieldCheck(p, Phone);
    if phoneError.Some? { errors := errors[Phone := phoneError.value]; }
    var passwordError := ValidatePassword(p.password);
    assert passwordError == FieldCheck(p, Password);
    if passwordError.Some? { errors := errors[Password := passwordError.value]; }
    var matchError := ValidatePasswordMatch(p.password, p.confirmPassword);
    assert matchError == FieldCheck(p, ConfirmPassword);
    if matchError.Some? { errors := errors[ConfirmPassword := matchError.value]; }
    if errors == map[] {
      forall f: ProfileField ensures FieldCheck(p, f).None? {
        assert f !in errors;
      }
    } else {
      var f :| f in errors;
      assert FieldCheck(p, f).Some?;
    }
  }

  /**
   * A form is accepted exactly when the username is 3 to 20 characters and
   * not blank, the email has the plain-words shape, the phone has at least
   * ten digits and only phone characters, the password is at least 8
   * characters with a lowercase letter, an uppercase letter and a digit,
   * and the confirmation repeats it.
   */
  lemma {:induction false} FormValidIff(p: ProfileData)
    ensures FormValid(p) <==>
      && !IsBlank(p.username) && 3 <= |p.username| <= 20
      && EmailShape(p.email)
      && |NumericOnly(p.phone)| >= 10 && PhonePattern(p.phone)
      && |p.password| >= 8 && HasLower(p.password) && HasUpper(p.password) && HasDigit(p.password)
      && p.confirmPassword == p.password
  {
    EmailAcceptedIffShape(p.email);
    assert FormValid(p) <==>
      FieldCheck(p, Username).None? && FieldCheck(p, Email).None? && FieldCheck(p, Phone).None?
      && FieldCheck(p, Password).None? && FieldCheck(p, ConfirmPassword).None?;
  }
}
