/** The sign-in and sign-up form (src/pages/auth/login.tsx): password strength, the
    password rule, per-field error messages, and the form state the handlers update. */
module Login {
  import opened Js

  // ---------------------------------------------------------------- password strength

  datatype Criterion = MinLength | Upper | Lower | Digit | Special

  predicate IsUpper(c: char) { 'A' <= c <= 'Z' }
  predicate IsLower(c: char) { 'a' <= c <= 'z' }
  predicate IsAsciiDigit(c: char) { '0' <= c <= '9' }

  /** `/[A-Z]/.test(p)` and its siblings: some character of p is in the class. */
  predicate HasUpper(p: string) { exists i :: 0 <= i < |p| && IsUpper(p[i]) }
  predicate HasLower(p: string) { exists i :: 0 <= i < |p| && IsLower(p[i]) }
  predicate HasDigit(p: string) { exists i :: 0 <= i < |p| && IsAsciiDigit(p[i]) }

  /** `/[^A-Za-z0-9]/.test(p)` */
  predicate HasSpecial(p: string) {
    exists i :: 0 <= i < |p| && !IsUpper(p[i]) && !IsLower(p[i]) && !IsAsciiDigit(p[i])
  }

  predicate Holds(c: Criterion, p: string) {
    match c
    case MinLength => |p| >= 8
    case Upper => HasUpper(p)
    case Lower => HasLower(p)
    case Digit => HasDigit(p)
    case Special => HasSpecial(p)
  }

  /** The criteria p meets, each once, in the order they are tested. */
  function Satisfied(p: string): (r: seq<Criterion>)
    ensures forall c :: c in r <==> Holds(c, p)
    ensures |r| <= 5
  {
    (if Holds(MinLength, p) then [MinLength] else [])
    + (if Holds(Upper, p) then [Upper] else [])
    + (if Holds(Lower, p) then [Lower] else [])
    + (if Holds(Digit, p) then [Digit] else [])
    + (if Holds(Special, p) then [Special] else [])
  }

  /** Lines 32-40: one increment per satisfied criterion. */
  method GetStrength(p: string) returns (strength: nat)
    ensures strength == |Satisfied(p)|
    ensures strength <= 5
  {
    strength := 0;
    if |p| >= 8 {
      strength := strength + 1;
    }
    if HasUpper(p) {
      strength := strength + 1;
    }
    if HasLower(p) {
      strength := strength + 1;
    }
    if HasDigit(p) {
      strength := strength + 1;
    }
    if HasSpecial(p) {
      strength := strength + 1;
    }
  }

  /** Lines 83-97. */
  predicate ValidatePassword(p: string) {
    |p| >= 8 && HasUpper(p) && HasLower(p) && HasDigit(p) && HasSpecial(p)
  }

  /** The password rule holds exactly when all five criteria count towards the strength. */
  lemma ValidatePasswordIffFullStrength(p: string)
    ensures ValidatePassword(p) <==> |Satisfied(p)| == 5
  {
  }

  /** A password that passes the rule. */
  lemma SamplePasswordIsValid()
    ensures ValidatePassword("Passw0rd!")
  {
    var p := "Passw0rd!";
    assert IsUpper(p[0]) && IsLower(p[1]) && IsAsciiDigit(p[5]);
    assert !IsUpper(p[8]) && !IsLower(p[8]) && !IsAsciiDigit(p[8]);
  }

  const StrengthLabels: seq<string> := ["Very Weak", "Weak", "Medium", "Strong", "Very Strong"]
  const StrengthColours: seq<string> := ["#ff4444", "#ffbb33", "#ffeb3b", "#00C851", "#007E33"]

  /** Lines 43-48 as written: `[…][strength]` on five entries, undefined past the end. */
  function LabelAsWritten(strength: nat): (r: Option<string>)
    ensures r.Some? <==> strength < 5
  {
    if strength < |StrengthLabels| then Some(StrengthLabels[strength]) else None
  }

  function ColourAsWritten(strength: nat): (r: Option<string>)
    ensures r.Some? <==> strength < 5
  {
    if strength < |StrengthColours| then Some(StrengthColours[strength]) else None
  }

  /** As written, every password that passes the rule shows no label and no bar colour. */
  lemma ValidPasswordHasNoLabel(p: string)
    requires ValidatePassword(p)
    ensures LabelAsWritten(|Satisfied(p)|) == None
    ensures ColourAsWritten(|Satisfied(p)|) == None
  {
    ValidatePasswordIffFullStrength(p);
  }

  /** The label with the strength capped at the last entry, so that a password
      meeting every criterion reads "Very Strong". */
  function StrengthLabel(strength: nat): (r: string)
    ensures r in StrengthLabels
    ensures strength < 5 ==> Some(r) == LabelAsWritten(strength)
    ensures strength >= 4 ==> r == "Very Strong"
  {
    StrengthLabels[Min(strength, 4)]
  }

  function StrengthColour(strength: nat): (r: string)
    ensures r in StrengthColours
    ensures strength < 5 ==> Some(r) == ColourAsWritten(strength)
    ensures strength >= 4 ==> r == "#007E33"
  {
    StrengthColours[Min(strength, 4)]
  }

  /** Every valid password gets a label and a colour under the capped lookup. */
  lemma ValidPasswordIsVeryStrong(p: string)
    requires ValidatePassword(p)
    ensures StrengthLabel(|Satisfied(p)|) == "Very Strong"
  {
    ValidatePasswordIffFullStrength(p);
  }

  /** Line 57: `Math.max((strength / 5) * 100, 0)` percent. */
  function BarWidth(strength: nat): (w: real)
    ensures w == 20.0 * strength as real
    ensures strength <= 5 ==> 0.0 <= w <= 100.0
  {
    var x := (strength as real / 5.0) * 100.0;
    if x >= 0.0 then x else 0.0
  }

  // ---------------------------------------------------------------- field formats

  predicate NoSpaceIn(s: string, i: int, j: int)
    requires 0 <= i <= j <= |s|
  {
    forall k :: i <= k < j ==> !IsSpace(s[k])
  }

  /** `/\S+@\S+\.\S+/.test(s)`, unanchored: somewhere in s an "@" with a non-space
      character before it, then at least one non-space character, then a "." with a
      non-space character after it. */
  predicate EmailMatches(s: string) {
    exists at, dot | 0 <= at < |s| && 0 <= dot < |s| :: EmailMatchAt(s, at, dot)
  }

  /** The match with its "@" at index `at` and its "." at index `dot`. */
  predicate EmailMatchAt(s: string, at: int, dot: int) {
    && 0 < at && at + 1 < dot && dot + 1 < |s| && s[at] == '@' && s[dot] == '.'
    && !IsSpace(s[at - 1]) && NoSpaceIn(s, at + 1, dot) && !IsSpace(s[dot + 1])
  }

  /** An address matches, also in the middle of other text. */
  lemma EmailMatchExamples()
    ensures EmailMatches("a@b.c")
    ensures EmailMatches("see a@b.c here")
  {
    var s := "a@b.c";
    assert s[1] == '@' && s[3] == '.' && !IsSpace(s[0]) && NoSpaceIn(s, 2, 3) && !IsSpace(s[4]);
    assert EmailMatchAt(s, 1, 3);
    var t := "see a@b.c here";
    assert t[5] == '@' && t[7] == '.' && !IsSpace(t[4]) && NoSpaceIn(t, 6, 7) && !IsSpace(t[8]);
    assert EmailMatchAt(t, 5, 7);
  }

  /** Without a "." after the "@", or with a space before it, nothing matches. */
  lemma EmailMismatchExamples()
    ensures !EmailMatches("user@example")
    ensures !EmailMatches("a @b.c")
  {
    var u := "user@example";
    forall at, dot ensures !EmailMatchAt(u, at, dot) {
      if 0 <= dot < |u| {
        assert u[dot] != '.';
      }
    }
    var v := "a @b.c";
    forall at, dot ensures !EmailMatchAt(v, at, dot) {
      if 0 < at < |v| && v[at] == '@' {
        assert at == 2;
      }
    }
  }

  /** `/^\d{10}$/`: exactly ten ASCII digits. */
  predicate ValidMobile(m: string) {
    |m| == 10 && forall i :: 0 <= i < |m| ==> IsAsciiDigit(m[i])
  }

  // ---------------------------------------------------------------- the form

  datatype Tab = LoginTab | SignupTab

  datatype Field = FullName | Email | Password | ConfirmPassword | Mobile

  datatype FormData = FormData(fullName: string, email: string, password: string,
                               confirmPassword: string, mobile: string)

  const EmptyForm := FormData("", "", "", "", "")

  function ValueOf(form: FormData, f: Field): string {
    match f
    case FullName => form.fullName
    case Email => form.email
    case Password => form.password
    case ConfirmPassword => form.confirmPassword
    case Mobile => form.mobile
  }

  /** `{...formData, [name]: value}`: the named field takes the value, the others keep theirs. */
  function WithField(form: FormData, f: Field, v: string): (r: FormData)
    ensures ValueOf(r, f) == v
    ensures forall g :: g != f ==> ValueOf(r, g) == ValueOf(form, g)
  {
    match f
    case FullName => form.(fullName := v)
    case Email => form.(email := v)
    case Password => form.(password := v)
    case ConfirmPassword => form.(confirmPassword := v)
    case Mobile => form.(mobile := v)
  }

  /** The message lines 116-150 record for one field, if any; "required" comes first. */
  function FieldError(tab: Tab, form: FormData, f: Field): Option<string> {
    match tab
    case SignupTab =>
      (match f
       case FullName => if form.fullName == "" then Some("Full name is required") else None
       case Email =>
         if form.email == "" then Some("Email is required")
         else if !EmailMatches(form.email) then Some("Email is invalid")
         else None
       case Password =>
         if form.password == "" then Some("Password is required")
         else if !ValidatePassword(form.password) then Some("Password must meet all requirements")
         else None
       case ConfirmPassword =>
         if form.confirmPassword == "" then Some("Please confirm your password")
         else if form.password != form.confirmPassword then Some("Passwords do not match")
         else None
       case Mobile =>
         if form.mobile != "" && !ValidMobile(form.mobile) then Some("Please enter a valid 10-digit mobile number")
         else None)
    case LoginTab =>
      (match f
       case Email => if form.email == "" then Some("Email is required") else None
       case Password => if form.password == "" then Some("Password is required") else None
       case _ => None)
  }

  const AllFields: set<Field> := {FullName, Email, Password, ConfirmPassword, Mobile}

  /** One field's step of lines 116-150: record its message, if it has one. */
  function Recorded(m: map<Field, string>, tab: Tab, form: FormData, f: Field): map<Field, string> {
    var e := FieldError(tab, form, f);
    if e.Some? then m[f := e.value] else m
  }

  /** The whole error object, built in the order of the source. */
  function FormErrors(tab: Tab, form: FormData): map<Field, string> {
    var m1 := Recorded(map[], tab, form, FullName);
    var m2 := Recorded(m1, tab, form, Email);
    var m3 := Recorded(m2, tab, form, Password);
    var m4 := Recorded(m3, tab, form, ConfirmPassword);
    Recorded(m4, tab, form, Mobile)
  }

  /** The error object holds one entry per field that has a message, and no other. */
  lemma FormErrorsEntries(tab: Tab, form: FormData)
    ensures forall f :: f in FormErrors(tab, form) <==> FieldError(tab, form, f).Some?
    ensures forall f :: f in FormErrors(tab, form) ==> FormErrors(tab, form)[f] == FieldError(tab, form, f).value
  {
    forall f ensures (f in FormErrors(tab, form) <==> FieldError(tab, form, f).Some?)
                     && (f in FormErrors(tab, form) ==> FormErrors(tab, form)[f] == FieldError(tab, form, f).value)
    {
      FormErrorsEntry(tab, form, f);
    }
  }

  lemma FormErrorsEntry(tab: Tab, form: FormData, f: Field)
    ensures f in FormErrors(tab, form) <==> FieldError(tab, form, f).Some?
    ensures f in FormErrors(tab, form) ==> FormErrors(tab, form)[f] == FieldError(tab, form, f).value
  {
    var m1 := Recorded(map[], tab, form, FullName);
    var m2 := Recorded(m1, tab, form, Email);
    var m3 := Recorded(m2, tab, form, Password);
    var m4 := Recorded(m3, tab, form, ConfirmPassword);
    var m5 := Recorded(m4, tab, form, Mobile);
    assert FormErrors(tab, form) == m5;
    match f
    case FullName => assert f in m5 <==> f in m1;
    case Email => assert f in m5 <==> f in m2;
    case Password => assert f in m5 <==> f in m3;
    case ConfirmPassword => assert f in m5 <==> f in m4;
    case Mobile =>
  }

  /** The form is accepted exactly when no field has a message. */
  lemma NoErrorsIff(tab: Tab, form: FormData)
    ensures FormErrors(tab, form) == map[] <==> forall f :: FieldError(tab, form, f).None?
  {
    FormErrorsEntries(tab, form);
    if FormErrors(tab, form) != map[] {
      var f :| f in FormErrors(tab, form);
    }
  }

  /** Every recorded message is non-empty, so `errors[name]` is truthy whenever set. */
  lemma MessagesNonEmpty(tab: Tab, form: FormData)
    ensures forall f :: f in FormErrors(tab, form) ==> FormErrors(tab, form)[f] != ""
  {
    FormErrorsEntries(tab, form);
  }

  /** In login mode only an empty email or an empty password is reported. */
  lemma LoginModeErrors(form: FormData)
    ensures FormErrors(LoginTab, form).Keys <= {Email, Password}
    ensures Email in FormErrors(LoginTab, form) <==> form.email == ""
    ensures Password in FormErrors(LoginTab, form) <==> form.password == ""
  {
    FormErrorsEntries(LoginTab, form);
  }

  /** Sign-up accepts exactly the forms with a name, a matching email, a valid
      password confirmed identically, and an empty or ten-digit mobile number. */
  lemma SignupAcceptedIff(form: FormData)
    ensures FormErrors(SignupTab, form) == map[] <==>
              && form.fullName != ""
              && EmailMatches(form.email)
              && ValidatePassword(form.password)
              && form.confirmPassword == form.password
              && (form.mobile == "" || ValidMobile(form.mobile))
  {
    var e := FormErrors(SignupTab, form);
    FormErrorsEntries(SignupTab, form);
    if e == map[] {
      assert FullName !in e && Email !in e && Password !in e && ConfirmPassword !in e && Mobile !in e;
      assert form.email != "";
      assert |form.password| >= 8;
    } else {
      var f :| f in e;
      assert FieldError(SignupTab, form, f).Some?;
    }
  }

  /** An empty required field gets the "required" message rather than a format message. */
  lemma RequiredFirst(form: FormData, f: Field)
    requires f != Mobile && ValueOf(form, f) == ""
    ensures FieldError(SignupTab, form, f) == Some(match f
                                                   case FullName => "Full name is required"
                                                   case Email => "Email is required"
                                                   case Password => "Password is required"
                                                   case ConfirmPassword => "Please confirm your password"
                                                   case Mobile => "")
  {
  }

  class LoginPage {
    var activeTab: Tab
    var formData: FormData
    var errors: map<Field, string>

    constructor ()
      ensures activeTab == LoginTab && formData == EmptyForm && errors == map[]
    {
      activeTab := LoginTab;
      formData := EmptyForm;
      errors := map[];
    }

    /** Lines 113-154: build the error object field by field, store it, and report
        whether it is empty. */
    method ValidateForm() returns (ok: bool)
      modifies this
      ensures errors == FormErrors(activeTab, formData)
      ensures ok <==> errors == map[]
      ensures activeTab == old(activeTab) && formData == old(formData)
    {
      ghost var tab, form := activeTab, formData;
      var newErrors: map<Field, string> := map[];
      ghost var step: map<Field, string> := map[];
      if activeTab == SignupTab {
        if formData.fullName == "" {
          newErrors := newErrors[FullName := "Full name is required"];
        }
        step := Recorded(step, tab, form, FullName);
        assert newErrors == step;
        if formData.email == "" {
          newErrors := newErrors[Email := "Email is required"];
        } else if !EmailMatches(formData.email) {
          newErrors := newErrors[Email := "Email is invalid"];
        }
        step := Recorded(step, tab, form, Email);
        assert newErrors == step;
        if formData.password == "" {
          newErrors := newErrors[Password := "Password is required"];
        } else if !ValidatePassword(formData.password) {
          newErrors := newErrors[Password := "Password must meet all requirements"];
        }
        step := Recorded(step, tab, form, Password);
        assert newErrors == step;
        if formData.confirmPassword == "" {
          newErrors := newErrors[ConfirmPassword := "Please confirm your password"];
        } else if formData.password != formData.confirmPassword {
          newErrors := newErrors[ConfirmPassword := "Passwords do not match"];
        }
        step := Recorded(step, tab, form, ConfirmPassword);
        assert newErrors == step;
        if formData.mobile != "" && !ValidMobile(formData.mobile) {
          newErrors := newErrors[Mobile := "Please enter a valid 10-digit mobile number"];
        }
        step := Recorded(step, tab, form, Mobile);
        assert newErrors == step;
      } else {
        step := Recorded(step, tab, form, FullName);
        if formData.email == "" {
          newErrors := newErrors[Email := "Email is required"];
        }
        step := Recorded(step, tab, form, Email);
        assert newErrors == step;
        if formData.password == "" {
          newErrors := newErrors[Password := "Password is required"];
        }
        step := Recorded(step, tab, form, Password);
        step := Recorded(step, tab, form, ConfirmPassword);
        step := Recorded(step, tab, form, Mobile);
        assert newErrors == step;
      }
      assert newErrors == FormErrors(tab, form);
      errors := newErrors;
      ok := |newErrors| == 0;
    }

    /** Lines 99-111: the named field takes the new value; its error, if one is shown,
        is cleared; nothing else changes. Every message `ValidateForm` records is
        non-empty (`MessagesNonEmpty`), so a recorded error is always cleared. */
    method HandleInputChange(name: Field, value: string)
      modifies this
      ensures formData == WithField(old(formData), name, value)
      ensures errors == if name in old(errors) && old(errors)[name] != "" then old(errors) - {name} else old(errors)
      ensures activeTab == old(activeTab)
    {
      formData := WithField(formData, name, value);
      if name in errors && errors[name] != "" {
        errors := errors - {name};
      }
    }

    /** Lines 246-256 and 267-277: either tab button empties the form and its errors. */
    method SwitchTab(tab: Tab)
      modifies this
      ensures activeTab == tab && formData == EmptyForm && errors == map[]
    {
      activeTab := tab;
      formData := EmptyForm;
      errors := map[];
    }
  }
}
