/** The sign-up page (Components/Pages/SignupPage/Signup.jsx): the password
    strength meter, the field rules of `validateForm`, the change handler and
    the registration payload. */
module Signup {
  import opened Optional
  import opened Text
  import opened Sorting
  import opened Forms

  // ------------------------------------------------------------- strength

  /** The five tests of `checkPasswordStrength`, one point each. */
  datatype Rule = MinLength6 | MinLength8 | HasUpper | HasDigit | HasSymbol

  const Rules: seq<Rule> := [MinLength6, MinLength8, HasUpper, HasDigit, HasSymbol]

  /** `/[A-Z]/.test(password)`. */
  predicate HasUpperChar(password: string) {
    exists i :: 0 <= i < |password| && IsAsciiUpper(password[i])
  }

  /** `/[0-9]/.test(password)`. */
  predicate HasDigitChar(password: string) {
    exists i :: 0 <= i < |password| && IsDigit(password[i])
  }

  /** `/[^A-Za-z0-9]/.test(password)`. */
  predicate HasSymbolChar(password: string) {
    exists i :: 0 <= i < |password| && !IsAsciiLetter(password[i]) && !IsDigit(password[i])
  }

  predicate Meets(password: string, rule: Rule) {
    match rule
    case MinLength6 => CodeUnits(password) >= 6
    case MinLength8 => CodeUnits(password) >= 8
    case HasUpper => HasUpperChar(password)
    case HasDigit => HasDigitChar(password)
    case HasSymbol => HasSymbolChar(password)
  }

  /** How many of `rules` the password meets. */
  function CountMet(password: string, rules: seq<Rule>): (r: nat)
    ensures r <= |rules|
  {
    if rules == [] then 0 else (if Meets(password, rules[0]) then 1 else 0) + CountMet(password, rules[1..])
  }

  /** The strength: how many of the five rules the password meets. */
  function Strength(password: string): (r: nat)
    ensures r <= 5
  {
    CountMet(password, Rules)
  }

  function Point(b: bool): nat { if b then 1 else 0 }

  /** The count rule by rule. */
  lemma StrengthUnfolded(password: string)
    ensures Strength(password) ==
      Point(CodeUnits(password) >= 6) + Point(CodeUnits(password) >= 8) + Point(HasUpperChar(password))
      + Point(HasDigitChar(password)) + Point(HasSymbolChar(password))
  {
    var t4: seq<Rule> := [HasSymbol];
    var t3 := [HasDigit] + t4;
    var t2 := [HasUpper] + t3;
    var t1 := [MinLength8] + t2;
    assert Rules == [MinLength6] + t1;
    assert CountMet(password, t4) == Point(HasSymbolChar(password)) by { assert t4[1..] == []; }
    assert CountMet(password, t3) == Point(HasDigitChar(password)) + CountMet(password, t4) by { assert t3[1..] == t4; }
    assert CountMet(password, t2) == Point(HasUpperChar(password)) + CountMet(password, t3) by { assert t2[1..] == t3; }
    assert CountMet(password, t1) == Point(CodeUnits(password) >= 8) + CountMet(password, t2) by { assert t1[1..] == t2; }
    assert CountMet(password, Rules) == Point(CodeUnits(password) >= 6) + CountMet(password, t1) by { assert Rules[1..] == t1; }
  }

  /** `checkPasswordStrength`: the local count, raised once per rule met. */
  method CountStrength(password: string) returns (strength: nat)
    ensures strength == Strength(password)
  {
    strength := 0;
    if CodeUnits(password) >= 6 { strength := strength + 1; }
    if CodeUnits(password) >= 8 { strength := strength + 1; }
    if HasUpperChar(password) { strength := strength + 1; }
    if HasDigitChar(password) { strength := strength + 1; }
    if HasSymbolChar(password) { strength := strength + 1; }
    StrengthUnfolded(password);
  }

  /** Each character test stays met when more is typed. */
  lemma CharTestsGrow(password: string, more: string)
    ensures HasUpperChar(password) ==> HasUpperChar(password + more)
    ensures HasDigitChar(password) ==> HasDigitChar(password + more)
    ensures HasSymbolChar(password) ==> HasSymbolChar(password + more)
  {
    var q := password + more;
    assert forall i :: 0 <= i < |password| ==> q[i] == password[i];
  }

  /** Typing more characters never lowers the strength. */
  lemma StrengthGrows(password: string, more: string)
    ensures Strength(password) <= Strength(password + more)
  {
    CodeUnitsConcat(password, more);
    CharTestsGrow(password, more);
    StrengthUnfolded(password);
    StrengthUnfolded(password + more);
  }

  /** The top strength needs eight characters, an upper-case letter, a digit
      and a symbol; a password of six lower-case letters scores one point. */
  lemma StrengthExtremes(password: string)
    ensures Strength(password) == 5 <==>
      CodeUnits(password) >= 8 && HasUpperChar(password) && HasDigitChar(password) && HasSymbolChar(password)
    ensures Strength("abcdef") == 1
  {
    StrengthUnfolded(password);
    StrengthUnfolded("abcdef");
    CodeUnitsBmp("abcdef");
    assert forall i :: 0 <= i < 6 ==> IsAsciiLetter("abcdef"[i]) && !IsAsciiUpper("abcdef"[i]) && !IsDigit("abcdef"[i]);
  }

  // ------------------------------------------------------ strength display

  const StrengthTexts: seq<string> := ["Very Weak", "Weak", "Fair", "Good", "Strong"]
  const StrengthColors: seq<string> := ["#dc3545", "#fd7e14", "#ffc107", "#20c997", "#28a745"]

  /** `texts[passwordStrength] || "Very Weak"`: a strength past the table reads
      undefined and falls back to the first entry. */
  function StrengthText(strength: nat): (r: string)
    ensures strength < 5 ==> r == StrengthTexts[strength]
    ensures strength >= 5 ==> r == "Very Weak"
  {
    if strength < |StrengthTexts| then StrengthTexts[strength] else "Very Weak"
  }

  /** `colors[passwordStrength] || "#dc3545"`. */
  function StrengthColor(strength: nat): (r: string)
    ensures strength < 5 ==> r == StrengthColors[strength]
    ensures strength >= 5 ==> r == "#dc3545"
  {
    if strength < |StrengthColors| then StrengthColors[strength] else "#dc3545"
  }

  /** The place of a label on the scale, Very Weak lowest. */
  function LabelRank(text: string): int {
    if text == "Very Weak" then 0
    else if text == "Weak" then 1
    else if text == "Fair" then 2
    else if text == "Good" then 3
    else if text == "Strong" then 4
    else -1
  }

  /** As written, the strongest passwords are labelled like the weakest: the
      label falls from Strong to Very Weak at the fifth point. */
  lemma StrongestLabelledVeryWeak(password: string)
    requires Strength(password) == 5
    ensures StrengthText(Strength(password)) == "Very Weak" && StrengthColor(Strength(password)) == "#dc3545"
    ensures LabelRank(StrengthText(Strength(password))) < LabelRank(StrengthText(4))
  {
  }

  /** The evidently intended meter: the table read at the strength, with the
      fifth point kept on the top label. */
  function IntendedStrengthText(strength: nat): (r: string)
    ensures r in StrengthTexts
  {
    StrengthTexts[if strength < 5 then strength else 4]
  }

  function IntendedStrengthColor(strength: nat): (r: string)
    ensures r in StrengthColors
  {
    StrengthColors[if strength < 5 then strength else 4]
  }

  /** The intended label never falls as the strength rises, agrees with the
      page below five points, and is Strong at five. */
  lemma IntendedLabelMonotone(a: nat, b: nat)
    requires a <= b
    ensures 0 <= LabelRank(IntendedStrengthText(a)) <= LabelRank(IntendedStrengthText(b))
    ensures b < 5 ==> IntendedStrengthText(b) == StrengthText(b) && IntendedStrengthColor(b) == StrengthColor(b)
    ensures b >= 5 ==> IntendedStrengthText(b) == "Strong" && IntendedStrengthColor(b) == "#28a745"
  {
  }

  // ------------------------------------------------------------ the rules

  /** `^[a-zA-Z\s]+$`. */
  predicate LettersAndSpaces(s: string) {
    s != "" && forall i :: 0 <= i < |s| ==> IsAsciiLetter(s[i]) || IsSpace(s[i])
  }

  /** The name rules, first failing rule first, on the trimmed name. */
  function NameError(name: string): (r: Option<string>)
    ensures r == Some("Name is required") <==> IsBlank(name)
    ensures r == Some("Name must be at least 2 characters") <==> !IsBlank(name) && CodeUnits(Trim(name)) < 2
    ensures r == Some("Name can only contain letters and spaces") <==> CodeUnits(Trim(name)) >= 2 && !LettersAndSpaces(Trim(name))
    ensures r.None? <==> CodeUnits(Trim(name)) >= 2 && LettersAndSpaces(Trim(name))
  {
    var t := Trim(name);
    if t == "" then Some("Name is required")
    else if CodeUnits(t) < 2 then Some("Name must be at least 2 characters")
    else if !LettersAndSpaces(t) then Some("Name can only contain letters and spaces")
    else None
  }

  /** The confirmation must be given and equal the password exactly. */
  function ConfirmError(password: string, confirm: string): (r: Option<string>)
    ensures r == Some("Please confirm your password") <==> confirm == ""
    ensures r == Some("Passwords do not match") <==> confirm != "" && confirm != password
    ensures r.None? <==> confirm != "" && confirm == password
  {
    if confirm == "" then Some("Please confirm your password")
    else if password != confirm then Some("Passwords do not match")
    else None
  }

  function ClassError(grade: string): (r: Option<string>)
    ensures r.None? <==> !IsBlank(grade)
    ensures r.Some? ==> r.value == "Class/Grade is required"
  {
    if Trim(grade) == "" then Some("Class/Grade is required") else None
  }

  /** The fields `validateForm` checks; `class` is the class or grade. */
  const CheckedFields: set<string> := {"name", "email", "password", "confirmPassword", "class"}

  /** The error object `validateForm` builds for a form. */
  function FormErrors(form: Fields): Fields {
    ErrorsOf(NameError(Get(form, "name")), EmailError(Get(form, "email")), PasswordError(Get(form, "password")),
             ConfirmError(Get(form, "password"), Get(form, "confirmPassword")), ClassError(Get(form, "class")))
  }

  function ErrorsOf(name: Option<string>, email: Option<string>, password: Option<string>,
                    confirm: Option<string>, grade: Option<string>): Fields
  {
    var e := WithError(map[], "name", name);
    var e := WithError(e, "email", email);
    var e := WithError(e, "password", password);
    var e := WithError(e, "confirmPassword", confirm);
    WithError(e, "class", grade)
  }

  /** One key per failing field, holding that field's message, and no other. */
  lemma ErrorsOfFields(name: Option<string>, email: Option<string>, password: Option<string>,
                       confirm: Option<string>, grade: Option<string>)
    ensures var r := ErrorsOf(name, email, password, confirm, grade);
      && r.Keys <= CheckedFields
      && ("name" in r <==> name.Some?) && (name.Some? ==> r["name"] == name.value)
      && ("email" in r <==> email.Some?) && (email.Some? ==> r["email"] == email.value)
      && ("password" in r <==> password.Some?) && (password.Some? ==> r["password"] == password.value)
      && ("confirmPassword" in r <==> confirm.Some?) && (confirm.Some? ==> r["confirmPassword"] == confirm.value)
      && ("class" in r <==> grade.Some?) && (grade.Some? ==> r["class"] == grade.value)
  {
  }

  /** A form without errors has a name of at least two letters or spaces, an
      address-shaped email, a password of six or more code units confirmed
      exactly, and a class; and any such form is accepted. */
  lemma AcceptedForms(form: Fields)
    ensures FormErrors(form) == map[] <==>
      && CodeUnits(Trim(Get(form, "name"))) >= 2 && LettersAndSpaces(Trim(Get(form, "name")))
      && !IsBlank(Get(form, "email")) && EmailLike(Get(form, "email"))
      && CodeUnits(Get(form, "password")) >= 6 && Get(form, "confirmPassword") == Get(form, "password")
      && !IsBlank(Get(form, "class"))
  {
    var n, e := NameError(Get(form, "name")), EmailError(Get(form, "email"));
    var p, c := PasswordError(Get(form, "password")), ConfirmError(Get(form, "password"), Get(form, "confirmPassword"));
    var g := ClassError(Get(form, "class"));
    ErrorsOfFields(n, e, p, c, g);
    var r := FormErrors(form);
    if n.None? && e.None? && p.None? && c.None? && g.None? {
      assert r.Keys == {};
    } else {
      assert "name" in r || "email" in r || "password" in r || "confirmPassword" in r || "class" in r;
    }
  }

  /** `const { confirmPassword, ...userData } = formData`. */
  function Payload(form: Fields): (r: Fields)
    ensures "confirmPassword" !in r
    ensures forall k :: k != "confirmPassword" ==> (k in r <==> k in form)
    ensures forall k :: k in r ==> r[k] == form[k]
  {
    form - {"confirmPassword"}
  }

  class Page {
    var formData: Fields
    var errors: Fields
    var passwordStrength: nat
    var loading: bool

    constructor ()
      ensures formData == map["name" := "", "email" := "", "password" := "", "confirmPassword" := "", "class" := ""]
      ensures errors == map[] && passwordStrength == 0 && !loading
    {
      formData := map["name" := "", "email" := "", "password" := "", "confirmPassword" := "", "class" := ""];
      errors, passwordStrength, loading := map[], 0, false;
    }

    /** `handleChange`: sets the field, clears its error, and rescores a new
        password. */
    method HandleChange(name: string, value: string)
      modifies this
      ensures formData == SetField(old(formData), name, value)
      ensures errors == ClearError(old(errors), name)
      ensures name == "password" ==> passwordStrength == Strength(value)
      ensures name != "password" ==> passwordStrength == old(passwordStrength)
      ensures loading == old(loading)
    {
      formData, errors := SetField(formData, name, value), ClearError(errors, name);
      if name == "password" {
        passwordStrength := CountStrength(value);
      }
    }

    /** `validateForm`: the error object built field by field, shown, and
        whether it is empty. */
    method ValidateForm() returns (ok: bool)
      modifies this
      ensures errors == FormErrors(formData)
      ensures ok <==> errors == map[]
      ensures formData == old(formData) && passwordStrength == old(passwordStrength) && loading == old(loading)
    {
      var newErrors := FormErrors(formData);
      errors := newErrors;
      ok := newErrors == map[];
    }

    /** `handleSubmit`: an invalid form is not sent; a valid one is sent
        without its confirmation. */
    method HandleSubmit() returns (sent: Option<Fields>)
      modifies this
      ensures errors == FormErrors(old(formData))
      ensures FormErrors(old(formData)) != map[] ==> sent.None?
      ensures FormErrors(old(formData)) == map[] ==> sent == Some(Payload(old(formData)))
      ensures formData == old(formData) && passwordStrength == old(passwordStrength) && loading == old(loading)
    {
      var ok := ValidateForm();
      if !ok {
        return None;
      }
      sent := Some(Payload(formData));
    }
  }
}
