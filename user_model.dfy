/**
 * The user schema as a validator. The setters run first (`trim` on the name,
 * `lowercase` on the e-mail), then each path reports at most one error,
 * `required` first. The `match` check passes on an empty string, and only
 * `required` runs on a missing value. The misspelt `unsique` option is not an
 * option Mongoose knows, so no uniqueness of e-mail addresses is declared and
 * the validator looks at one record alone.
 */
module UserModel {
  import opened Wrappers
  import opened Text

  const Buyer: string := "comprador"
  const Seller: string := "vendedor"
  const MinPasswordLength: nat := 6

  datatype UserInput = UserInput(
    name: Option<string>,
    email: Option<string>,
    password: Option<string>,
    role: Option<string>)

  datatype User = User(name: string, email: string, password: string, role: string)

  datatype Field = Name | Email | Password | Role

  datatype Violation = Required | NoMatch | TooShort | NotInEnum

  datatype FieldError = FieldError(field: Field, violation: Violation)

  /**
   * The regular expression `.+@.+\..+`, unanchored: somewhere in `s` an "@"
   * with a character before it, then at least one character, then a "." with
   * a character after it, none of those characters being a line terminator.
   */
  predicate EmailPatternAt(s: string, at: int, dot: int) {
    && 1 <= at && at + 1 < dot && dot + 1 < |s|
    && s[at] == '@' && s[dot] == '.'
    && !IsLineTerminator(s[at - 1]) && !IsLineTerminator(s[dot + 1])
    && forall k | at < k < dot :: !IsLineTerminator(s[k])
  }

  predicate MatchesEmailPattern(s: string)
    ensures MatchesEmailPattern(s) ==> '@' in s && '.' in s && |s| >= 5
  {
    exists at, dot | 0 <= at < dot < |s| :: EmailPatternAt(s, at, dot)
  }

  /** A matching address has at least five characters, among them an "@" followed later by a ".". */
  lemma EmailPatternShape(s: string)
    requires MatchesEmailPattern(s)
    ensures |s| >= 5
    ensures exists at, dot | 0 < at && at + 1 < dot && dot + 1 < |s| :: s[at] == '@' && s[dot] == '.'
  {
    var at, dot :| 0 <= at < dot < |s| && EmailPatternAt(s, at, dot);
  }

  /**
   * Lower-casing never changes whether the pattern matches, so checking it
   * after the `lowercase` setter accepts the same addresses as checking the
   * address as typed.
   */
  lemma LowercaseKeepsMatch(s: string)
    ensures MatchesEmailPattern(ToLower(s)) <==> MatchesEmailPattern(s)
  {
    var t := ToLower(s);
    if MatchesEmailPattern(s) {
      var at, dot :| 0 <= at < dot < |s| && EmailPatternAt(s, at, dot);
      assert EmailPatternAt(t, at, dot);
    }
    if MatchesEmailPattern(t) {
      var at, dot :| 0 <= at < dot < |t| && EmailPatternAt(t, at, dot);
      assert EmailPatternAt(s, at, dot);
    }
  }

  /** Two addresses the pattern accepts and two it refuses. */
  lemma EmailPatternExamples()
    ensures MatchesEmailPattern("ana@correo.com")
    ensures MatchesEmailPattern("a@b.c")
    ensures !MatchesEmailPattern("ana@correo")
    ensures !MatchesEmailPattern("@b.c")
  {
    assert EmailPatternAt("ana@correo.com", 3, 10);
    assert EmailPatternAt("a@b.c", 1, 3);
  }

  /** The name after the `trim` setter. */
  function TrimmedName(input: UserInput): Option<string> {
    if input.name.None? then None else Some(Trim(input.name.value))
  }

  /** The e-mail after the `lowercase` setter. */
  function LoweredEmail(input: UserInput): Option<string> {
    if input.email.None? then None else Some(ToLower(input.email.value))
  }

  /** The role after the default is applied to a missing one. */
  function RoleOrDefault(input: UserInput): string {
    if input.role.None? then Buyer else input.role.value
  }

  function NameErrors(name: Option<string>): set<FieldError> {
    if name.None? || name.value == "" then {FieldError(Name, Required)} else {}
  }

  function EmailErrors(email: Option<string>): set<FieldError> {
    if email.None? || email.value == "" then {FieldError(Email, Required)}
    else if !MatchesEmailPattern(email.value) then {FieldError(Email, NoMatch)}
    else {}
  }

  function PasswordErrors(password: Option<string>): set<FieldError> {
    if password.None? || password.value == "" then {FieldError(Password, Required)}
    else if Utf16Length(password.value) < MinPasswordLength then {FieldError(Password, TooShort)}
    else {}
  }

  function RoleErrors(role: string): set<FieldError> {
    if role != Buyer && role != Seller then {FieldError(Role, NotInEnum)} else {}
  }

  /**
   * Every error the schema reports for `input`: none exactly when every
   * constraint holds, and at most one per field.
   */
  function Errors(input: UserInput): (errors: set<FieldError>)
    ensures errors == {} <==>
      && input.name.Some? && Trim(input.name.value) != ""
      && input.email.Some? && MatchesEmailPattern(input.email.value)
      && input.password.Some? && Utf16Length(input.password.value) >= MinPasswordLength
      && (input.role.None? || input.role.value in {Buyer, Seller})
    ensures forall e1, e2 | e1 in errors && e2 in errors && e1.field == e2.field :: e1 == e2
  {
    assert input.email.Some? ==>
      (MatchesEmailPattern(ToLower(input.email.value)) <==> MatchesEmailPattern(input.email.value))
    by {
      if input.email.Some? { LowercaseKeepsMatch(input.email.value); }
    }
    NameErrors(TrimmedName(input))
    + EmailErrors(LoweredEmail(input))
    + PasswordErrors(input.password)
    + RoleErrors(RoleOrDefault(input))
  }

  /**
   * Validation: the stored user, or the full set of errors. A user is stored
   * only with a name that is not blank once trimmed, an e-mail that matches
   * the pattern, a password of at least six UTF-16 code units and a role that is
   * "comprador" or "vendedor", a missing role becoming "comprador".
   */
  function Validate(input: UserInput): (r: Result<User, set<FieldError>>)
    ensures r.Success? <==>
      && input.name.Some? && Trim(input.name.value) != ""
      && input.email.Some? && MatchesEmailPattern(input.email.value)
      && input.password.Some? && Utf16Length(input.password.value) >= MinPasswordLength
      && (input.role.None? || input.role.value in {Buyer, Seller})
    ensures r.Success? ==>
      && r.value.name == Trim(input.name.value)
      && r.value.email == ToLower(input.email.value)
      && r.value.password == input.password.value
      && r.value.role == (if input.role.None? then Buyer else input.role.value)
    ensures r.Failure? ==> r.error != {}
  {
    var errors := Errors(input);
    if errors != {} then Failure(errors)
    else Success(User(Trim(input.name.value), ToLower(input.email.value), input.password.value,
                      RoleOrDefault(input)))
  }

  /** A stored user's role is one of the two roles, and a user stored without a role is a buyer. */
  lemma StoredRole(input: UserInput)
    requires Validate(input).Success?
    ensures Validate(input).value.role in {Buyer, Seller}
    ensures input.role.None? ==> Validate(input).value.role == Buyer
  {
  }

  /**
   * A password of fewer than six UTF-16 code units is refused: an empty one
   * is reported missing, any other too short.
   */
  lemma ShortPassword(input: UserInput)
    requires input.password.Some? && Utf16Length(input.password.value) < MinPasswordLength
    ensures input.password.value == "" ==> FieldError(Password, Required) in Errors(input)
    ensures input.password.value != "" ==> FieldError(Password, TooShort) in Errors(input)
    ensures Validate(input).Failure?
  {
  }

  /** A stored e-mail is lower case and still matches the pattern. */
  lemma StoredEmail(input: UserInput)
    requires Validate(input).Success?
    ensures var e := Validate(input).value.email;
      MatchesEmailPattern(e) && forall k | 0 <= k < |e| :: !IsUpper(e[k])
  {
    LowercaseKeepsMatch(input.email.value);
  }

  /**
   * `minlength` counts UTF-16 code units, so three characters outside the
   * Basic Multilingual Plane make a password long enough.
   */
  lemma SurrogatePairPassword()
    ensures var pw := "\U{1F600}\U{1F600}\U{1F600}";
      && |pw| == 3 && Utf16Length(pw) == 6
      && Validate(UserInput(Some("ana"), Some("a@b.c"), Some(pw), None)).Success?
  {
    var pw := "\U{1F600}\U{1F600}\U{1F600}";
    assert Utf16Length(pw[2..]) == 2;
    assert Utf16Length(pw[1..]) == 4;
    NonBlankName("ana");
    EmailPatternExamples();
  }

  /** A name whose first character is not white space survives the `trim` setter. */
  lemma NonBlankName(name: string)
    requires name != [] && !IsJsSpace(name[0])
    ensures Trim(name) != ""
  {
    TrimEmptyIff(name);
  }
}
