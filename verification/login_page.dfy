/**
 * The login form's validation: required fields, the e-mail pattern
 * `/\S+@\S+\.\S+/` (unanchored) and the six-character password minimum,
 * collected into a field-to-message map.
 */
module LoginPage {
  import opened Wrappers
  import opened Text

  const EmailRequired := "Email é obrigatório"
  const EmailInvalid := "Email inválido"
  const PasswordRequired := "Senha é obrigatória"
  const PasswordTooShort := "Senha deve ter pelo menos 6 caracteres"
  const MinPasswordLength := 6

  /** `s[p]` is the '@' and `s[q]` the '.' of a match of `\S+@\S+\.\S+`: a non-space before the '@', only non-spaces (at least one) between them, a non-space after the '.'. */
  predicate EmailShapeAt(s: string, p: int, q: int) {
    1 <= p && p + 1 < q && q + 1 < |s|
    && s[p] == '@' && !IsWhitespace(s[p - 1])
    && (forall k :: p < k < q ==> !IsWhitespace(s[k]))
    && s[q] == '.' && !IsWhitespace(s[q + 1])
  }

  /** `/\S+@\S+\.\S+/.test(s)`: the pattern matches somewhere in `s`. */
  predicate MatchesEmailPattern(s: string) {
    exists p, q | 0 <= p < |s| && 0 <= q < |s| :: EmailShapeAt(s, p, q)
  }

  /** The pattern is not anchored: text around a match does not spoil it. */
  lemma {:induction false} EmailPatternUnanchored(a: string, s: string, b: string)
    requires MatchesEmailPattern(s)
    ensures MatchesEmailPattern(a + s + b)
  {
    var p, q :| 0 <= p < |s| && 0 <= q < |s| && EmailShapeAt(s, p, q);
    var t := a + s + b;
    forall k | |a| + p < k < |a| + q ensures !IsWhitespace(t[k]) {
      assert t[k] == s[k - |a|];
    }
    assert EmailShapeAt(t, |a| + p, |a| + q);
  }

  /** Any match needs at least five characters, among them an '@' followed later by a '.'. */
  lemma {:induction false} EmailPatternNeeds(s: string)
    requires MatchesEmailPattern(s)
    ensures |s| >= 5
    ensures exists p, q | 0 <= p < q < |s| :: s[p] == '@' && s[q] == '.'
  {
    var p, q :| 0 <= p < |s| && 0 <= q < |s| && EmailShapeAt(s, p, q);
    assert s[p] == '@' && s[q] == '.';
  }

  lemma {:induction false} SampleAddressMatches()
    ensures MatchesEmailPattern("maria@email.com")
  {
    assert EmailShapeAt("maria@email.com", 5, 11);
  }

  /** The e-mail rule: required first, then the pattern. */
  function EmailError(email: string): (err: Option<string>)
    ensures err.None? <==> email != "" && MatchesEmailPattern(email)
    ensures err == Some(EmailRequired) <==> email == ""
    ensures err == Some(EmailInvalid) <==> email != "" && !MatchesEmailPattern(email)
  {
    if email == "" then Some(EmailRequired)
    else if !MatchesEmailPattern(email) then Some(EmailInvalid)
    else None
  }

  /** The password rule: required first, then at least six UTF-16 code units (`password.length`). */
  function PasswordError(password: string): (err: Option<string>)
    ensures err.None? <==> Utf16Length(password) >= MinPasswordLength
    ensures err == Some(PasswordRequired) <==> password == ""
    ensures err == Some(PasswordTooShort) <==> password != "" && Utf16Length(password) < MinPasswordLength
  {
    if password == "" then Some(PasswordRequired)
    else if Utf16Length(password) < MinPasswordLength then Some(PasswordTooShort)
    else None
  }

  /** Three characters outside the Basic Multilingual Plane are six code units, enough for the rule. */
  lemma {:induction false} AstralPasswordAccepted()
    ensures PasswordError("\U{1F600}\U{1F600}\U{1F600}") == None
  {
    var s := "\U{1F600}\U{1F600}\U{1F600}";
    assert s[1..] == "\U{1F600}\U{1F600}";
    assert s[1..][1..] == "\U{1F600}";
    assert s[1..][1..][1..] == [];
    assert Utf16Length(s) == 6;
  }

  /** For passwords of ordinary characters the rule is a count of characters. */
  lemma {:induction false} BmpPasswordRule(password: string)
    requires forall i :: 0 <= i < |password| ==> password[i] as int <= 0xFFFF
    ensures PasswordError(password).None? <==> |password| >= MinPasswordLength
  {
    Utf16LengthOfBmp(password);
  }

  datatype Field = EmailField | PasswordField

  /** The form's state: the two inputs and the error shown under each. */
  class LoginForm {
    var formData: map<Field, string>
    var errors: map<Field, string>

    ghost predicate Valid()
      reads this
    {
      EmailField in formData && PasswordField in formData
    }

    constructor ()
      ensures Valid() && formData == map[EmailField := "", PasswordField := ""] && errors == map[]
    {
      formData := map[EmailField := "", PasswordField := ""];
      errors := map[];
    }

    /** `handleChange`: store the typed value; blank that field's error if one is shown, leaving the key in place. */
    method HandleChange(name: Field, value: string)
      requires Valid()
      modifies this
      ensures Valid()
      ensures formData == old(formData)[name := value]
      ensures name in old(errors) && old(errors)[name] != "" ==> errors == old(errors)[name := ""]
      ensures !(name in old(errors) && old(errors)[name] != "") ==> errors == old(errors)
    {
      formData := formData[name := value];
      if name in errors && errors[name] != "" {
        errors := errors[name := ""];
      }
    }

    /** `validateForm`: build a fresh error map, one message at most per field, store it, and report whether it is empty. */
    method Validate() returns (ok: bool)
      requires Valid()
      modifies this`errors
      ensures ok <==> errors == map[]
      ensures ok <==> EmailError(formData[EmailField]).None? && PasswordError(formData[PasswordField]).None?
      ensures EmailField in errors <==> EmailError(formData[EmailField]).Some?
      ensures EmailField in errors ==> Some(errors[EmailField]) == EmailError(formData[EmailField])
      ensures PasswordField in errors <==> PasswordError(formData[PasswordField]).Some?
      ensures PasswordField in errors ==> Some(errors[PasswordField]) == PasswordError(formData[PasswordField])
    {
      var newErrors: map<Field, string> := map[];
      var emailError := EmailError(formData[EmailField]);
      if emailError.Some? {
        newErrors := newErrors[EmailField := emailError.value];
      }
      var passwordError := PasswordError(formData[PasswordField]);
      if passwordError.Some? {
        newErrors := newErrors[PasswordField := passwordError.value];
      }
      errors := newErrors;
      ok := |newErrors.Keys| == 0;
    }
  }
}
