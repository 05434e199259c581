/** What the login and sign-up pages share: form data and error messages as
    objects from field name to string, the rule that clears a field's error
    as the user types, and the email and password rules both pages apply with
    the same messages. */
module Forms {
  import opened Optional
  import opened Text

  /** A form object or an error object: a field that was never set reads as
      undefined, which is falsy, like "". */
  type Fields = map<string, string>

  function Get(fields: Fields, name: string): string {
    if name in fields then fields[name] else ""
  }

  /** `{...prev, [name]: value}`. */
  function SetField(fields: Fields, name: string, value: string): (r: Fields)
    ensures Get(r, name) == value
    ensures forall k :: k != name ==> Get(r, k) == Get(fields, k)
    ensures r.Keys == fields.Keys + {name}
  {
    fields[name := value]
  }

  /** `if (errors[name]) setErrors(prev => ({...prev, [name]: ""}))`. */
  function ClearError(errors: Fields, name: string): (r: Fields)
    ensures Get(r, name) == ""
    ensures forall k :: k != name ==> Get(r, k) == Get(errors, k)
    ensures Get(errors, name) == "" ==> r == errors
  {
    if Get(errors, name) != "" then errors[name := ""] else errors
  }

  /** Typing into a field twice clears its error no further, and typing into
      one field never clears another's. */
  lemma ClearErrorIdempotent(errors: Fields, name: string, other: string)
    requires other != name
    ensures ClearError(ClearError(errors, name), name) == ClearError(errors, name)
    ensures Get(ClearError(errors, name), other) == Get(errors, other)
  {
  }

  /** `newErrors[field] = message` when a rule fails: the error object of
      `validateForm` on both pages is built one such step per field. */
  function WithError(errors: Fields, field: string, message: Option<string>): (r: Fields)
    ensures message.None? ==> r == errors
    ensures message.Some? ==> r == errors[field := message.value]
  {
    if message.Some? then errors[field := message.value] else errors
  }

  /** The search `/\S+@\S+\.\S+/.test(s)`, anywhere in `s`: a character that is
      not white space, "@", one or more such characters, ".", and one more. */
  predicate EmailLike(s: string) {
    exists at, dot :: 0 < at < dot - 1 && dot < |s| - 1 && EmailAt(s, at, dot)
  }

  /** The match with its "@" at `at` and its "." at `dot`. */
  predicate EmailAt(s: string, at: int, dot: int)
    requires 0 < at < dot - 1 && dot < |s| - 1
  {
    && s[at] == '@' && s[dot] == '.' && !IsSpace(s[at - 1]) && !IsSpace(s[dot + 1])
    && forall k :: at < k < dot ==> !IsSpace(s[k])
  }

  /** The email rule of both pages: required, then shaped like an address. The
      emptiness test trims; the shape test reads the untrimmed value. */
  function EmailError(email: string): (r: Option<string>)
    ensures r == Some("Email is required") <==> IsBlank(email)
    ensures r == Some("Please enter a valid email") <==> !IsBlank(email) && !EmailLike(email)
    ensures r.None? <==> !IsBlank(email) && EmailLike(email)
  {
    if Trim(email) == "" then Some("Email is required")
    else if !EmailLike(email) then Some("Please enter a valid email")
    else None
  }

  /** The password rule of both pages: required, then at least six UTF-16
      code units; white space counts. */
  function PasswordError(password: string): (r: Option<string>)
    ensures r == Some("Password is required") <==> password == ""
    ensures r == Some("Password must be at least 6 characters") <==> 0 < CodeUnits(password) < 6
    ensures r.None? <==> CodeUnits(password) >= 6
  {
    if password == "" then Some("Password is required")
    else if CodeUnits(password) < 6 then Some("Password must be at least 6 characters")
    else None
  }

  /** Addresses the rule accepts and rejects: the search is unanchored, needs
      a character between "@" and ".", and one after the ".". */
  lemma EmailExamples()
    ensures EmailLike("ann@school.org")
    ensures EmailLike("to: ann@school.org ")
    ensures !EmailLike("ann@school")
    ensures !EmailLike("ann@.org")
    ensures !EmailLike("ann@school.")
  {
    assert EmailAt("ann@school.org", 3, 10);
    assert EmailAt("to: ann@school.org ", 7, 14);
    var t := "ann@school";
    assert forall i :: 0 <= i < |t| ==> t[i] != '.';
    var u := "ann@.org";
    assert forall i :: 0 <= i < |u| && u[i] == '.' ==> i == 4;
    assert forall i :: 0 <= i < |u| && u[i] == '@' ==> i == 3;
    var v := "ann@school.";
    assert forall i :: 0 <= i < |v| - 1 ==> v[i] != '.';
  }
}
