/** The form validators: each takes the field's text and answers valid, or
    invalid with the message to show under the field. */
module Validation {
  import opened Wrappers
  import opened Text
  import Messages

  /** `{isValid: true}` or `{isValid: false, message}`. */
  datatype ValidationResult = Valid | Invalid(message: string)

  const DefaultPasswordMin: int := 6

  /** `!value || value.trim() === ''`. */
  predicate Missing(value: string) {
    value == "" || Trim(value) == ""
  }

  /** `[^\s@]`. */
  predicate EmailChar(c: char) {
    !IsSpace(c) && c != '@'
  }

  /** `/^[^\s@]+@[^\s@]+\.[^\s@]+$/.test(s)`: `s` splits at an `@` (index
      `i`) and a later `.` (index `j`) into three non-empty runs of `[^\s@]`;
      the `.` itself is a `[^\s@]` too. */
  predicate EmailPattern(s: string) {
    exists i, j :: 0 < i && i + 1 < j && j + 1 < |s| && s[i] == '@' && s[j] == '.' &&
      forall k :: 0 <= k < |s| && k != i ==> EmailChar(s[k])
  }

  /** `/^0\d{9}$/.test(s)`. */
  predicate PhonePattern(s: string) {
    |s| == 10 && s[0] == '0' && forall k :: 1 <= k < 10 ==> IsDigit(s[k])
  }

  /** `validateEmail(email)`: valid exactly when the text matches the
      pattern; blank text is reported as missing, anything else as
      malformed. */
  function ValidateEmail(email: string): (r: ValidationResult)
    ensures r.Valid? <==> EmailPattern(email)
    ensures r == Invalid(Messages.Required) <==> IsBlank(email)
    ensures r.Invalid? && !IsBlank(email) ==> r.message == Messages.InvalidEmail
  {
    MissingIffBlank(email);
    PatternNotBlank(email);
    assert Messages.Required != Messages.InvalidEmail by {
      assert Messages.Required[0] != Messages.InvalidEmail[0];
    }
    if Missing(email) then Invalid(Messages.Required)
    else if !EmailPattern(email) then Invalid(Messages.InvalidEmail)
    else Valid
  }

  /** `validatePhone(phone)`: valid exactly when the text is ten ASCII digits
      starting with `0`; blank text is reported as missing, anything else
      as malformed. */
  function ValidatePhone(phone: string): (r: ValidationResult)
    ensures r.Valid? <==> |phone| == 10 && phone[0] == '0' && AllDigits(phone)
    ensures r == Invalid(Messages.Required) <==> IsBlank(phone)
    ensures r.Invalid? && !IsBlank(phone) ==> r.message == Messages.InvalidPhone
  {
    MissingIffBlank(phone);
    assert !IsSpace('0');
    assert Messages.Required != Messages.InvalidPhone by {
      assert Messages.Required[0] != Messages.InvalidPhone[0];
    }
    if Missing(phone) then Invalid(Messages.Required)
    else if !PhonePattern(phone) then Invalid(Messages.InvalidPhone)
    else Valid
  }

  /** `validatePassword(password, minLength = 6)`: the length test is on the
      untrimmed text. */
  function ValidatePassword(password: string, minLength: Option<int>): (r: ValidationResult)
    ensures var min := if minLength.Some? then minLength.value else DefaultPasswordMin;
      && (r.Valid? <==> !IsBlank(password) && |password| >= min)
      && (IsBlank(password) ==> r == Invalid(Messages.Required))
      && (!IsBlank(password) && |password| < min ==> r == Invalid(Messages.Min(min)))
  {
    TrimEmptyIffBlank(password);
    var min := if minLength.Some? then minLength.value else DefaultPasswordMin;
    if Missing(password) then Invalid(Messages.Required)
    else if |password| < min then Invalid(Messages.Min(min))
    else Valid
  }

  /** `validateRequired(value, fieldName)`: a truthy field name is put in
      front of the lower-cased message. */
  function ValidateRequired(value: string, fieldName: Option<string>): (r: ValidationResult)
    ensures r.Valid? <==> !IsBlank(value)
    ensures r.Invalid? && fieldName.Some? && fieldName.value != "" ==>
      r.message == fieldName.value + " " + AsciiLower(Messages.Required)
    ensures r.Invalid? && (fieldName.None? || fieldName.value == "") ==> r.message == Messages.Required
  {
    TrimEmptyIffBlank(value);
    if Missing(value) then
      Invalid(if fieldName.Some? && fieldName.value != ""
              then fieldName.value + " " + AsciiLower(Messages.Required)
              else Messages.Required)
    else Valid
  }

  /** `validateMinLength(value, minLength)`: no trimming, and the empty text
      fails whatever the bound. */
  function ValidateMinLength(value: string, minLength: int): (r: ValidationResult)
    ensures r.Valid? <==> value != "" && |value| >= minLength
    ensures r.Invalid? ==> r.message == Messages.Min(minLength)
  {
    if value == "" || |value| < minLength then Invalid(Messages.Min(minLength)) else Valid
  }

  /** `validateMaxLength(value, maxLength)`: the empty text passes whatever
      the bound. */
  function ValidateMaxLength(value: string, maxLength: int): (r: ValidationResult)
    ensures r.Invalid? <==> value != "" && |value| > maxLength
    ensures r.Invalid? ==> r.message == Messages.Max(maxLength)
  {
    if value != "" && |value| > maxLength then Invalid(Messages.Max(maxLength)) else Valid
  }

  function ValidatePasswordMatch(password: string, confirmPassword: string): (r: ValidationResult)
    ensures r.Valid? <==> password == confirmPassword
    ensures r.Invalid? ==> r.message == Messages.PasswordMismatch
  {
    if password != confirmPassword then Invalid(Messages.PasswordMismatch) else Valid
  }

  // ---------------------------------------------------------------------
  // Properties

  /** The `@` at index `i` is the only one exactly when it is counted once. */
  lemma SingleAt(s: string, i: nat)
    requires i < |s| && s[i] == '@'
    ensures multiset(s)['@'] == 1 <==> forall k :: 0 <= k < |s| && k != i ==> s[k] != '@'
  {
    var a, b := s[..i], s[i + 1..];
    assert s == a + [s[i]] + b;
    assert multiset(s)['@'] == multiset(a)['@'] + 1 + multiset(b)['@'];
    if forall k :: 0 <= k < |s| && k != i ==> s[k] != '@' {
      assert '@' !in a by {
        forall k | 0 <= k < |a| ensures a[k] != '@' { assert a[k] == s[k]; }
      }
      assert '@' !in b by {
        forall k | 0 <= k < |b| ensures b[k] != '@' { assert b[k] == s[i + 1 + k]; }
      }
    } else {
      var k :| 0 <= k < |s| && k != i && s[k] == '@';
      if k < i {
        assert a[k] == '@';
      } else {
        assert b[k - i - 1] == '@';
      }
    }
  }

  /** The email pattern in words: no whitespace, exactly one `@`, something
      before it, and after it a `.` with something on both sides. */
  lemma EmailPatternInWords(s: string)
    ensures EmailPattern(s) <==>
      && NoSpace(s)
      && multiset(s)['@'] == 1
      && exists i :: 0 < i < |s| && s[i] == '@' && exists j :: i + 1 < j < |s| - 1 && s[j] == '.'
  {
    if EmailPattern(s) {
      var i, j :| 0 < i && i + 1 < j && j + 1 < |s| && s[i] == '@' && s[j] == '.' &&
        forall k :: 0 <= k < |s| && k != i ==> EmailChar(s[k]);
      SingleAt(s, i);
      assert i + 1 < j < |s| - 1 && s[j] == '.';
    }
    if && NoSpace(s) && multiset(s)['@'] == 1
       && exists i :: 0 < i < |s| && s[i] == '@' && exists j :: i + 1 < j < |s| - 1 && s[j] == '.' {
      var i :| 0 < i < |s| && s[i] == '@' && exists j :: i + 1 < j < |s| - 1 && s[j] == '.';
      var j :| i + 1 < j < |s| - 1 && s[j] == '.';
      SingleAt(s, i);
      assert forall k :: 0 <= k < |s| && k != i ==> EmailChar(s[k]);
    }
  }

  /** The missing-value test holds exactly for blank text. */
  lemma MissingIffBlank(s: string)
    ensures Missing(s) <==> IsBlank(s)
  {
    TrimEmptyIffBlank(s);
  }

  /** Text that matches the email pattern is not blank: its first
      character is a `[^\s@]`. */
  lemma PatternNotBlank(s: string)
    ensures EmailPattern(s) ==> !IsBlank(s)
  {
    if EmailPattern(s) {
      var i, j :| 0 < i && i + 1 < j && j + 1 < |s| && s[i] == '@' && s[j] == '.' &&
        forall k :: 0 <= k < |s| && k != i ==> EmailChar(s[k]);
      assert EmailChar(s[0]);
    }
  }

  /** Surrounding spaces count towards the password length: six characters
      of which five are letters pass the default bound. */
  lemma PasswordLengthIsUntrimmed()
    ensures ValidatePassword(" abcde", None) == Valid
    ensures ValidateMinLength(" abcde", 6) == Valid
  {
    assert !IsSpace(" abcde"[1]);
  }

  /** The lower-cased required message reads "trường này là bắt buộc": its
      only capital is ASCII, so ASCII lowering is the full `toLowerCase`. */
  lemma RequiredLowered()
    ensures AsciiLower(Messages.Required) == RequiredLower
  {
    forall i | 0 <= i < |RequiredLower| ensures AsciiLower(Messages.Required)[i] == RequiredLower[i] {
    }
  }

  /** `STRINGS.validation.required.toLowerCase()`. */
  const RequiredLower: string := "trường này là bắt buộc"

  /** A blank value with a field name reads "<field> trường này là bắt buộc". */
  lemma RequiredWithFieldName(value: string, fieldName: string)
    requires IsBlank(value) && fieldName != ""
    ensures ValidateRequired(value, Some(fieldName)) == Invalid(fieldName + " " + RequiredLower)
  {
    RequiredLowered();
  }
}
