/** The credential rules and per-field error bookkeeping shared by the login,
    registration and profile-settings forms (src/screens/LoginScreen.tsx,
    RegisterScreen.tsx, SettingsProfileScreen.tsx). */
module Forms {
  import opened Text

  // ---------------------------------------------------------------------------
  // The username pattern /^[a-zA-Z0-9_]*$/
  // ---------------------------------------------------------------------------

  /** One character of the class `[a-zA-Z0-9_]`. */
  predicate IsWordChar(c: char) {
    ('a' <= c <= 'z') || ('A' <= c <= 'Z') || ('0' <= c <= '9') || c == '_'
  }

  /** The anchored pattern `^[a-zA-Z0-9_]*$`, matched the way a backtracking
      matcher does it: the starred class consumes one character at a time and
      the end anchor must hold when it stops. */
  predicate MatchesWordPattern(s: string)
    decreases |s|
  {
    s == [] || (IsWordChar(s[0]) && MatchesWordPattern(s[1..]))
  }

  /** The pattern accepts exactly the strings made only of word characters. */
  lemma {:induction false} WordPatternMeansWordChars(s: string)
    ensures MatchesWordPattern(s) <==> forall i :: 0 <= i < |s| ==> IsWordChar(s[i])
    decreases |s|
  {
    if s != [] {
      WordPatternMeansWordChars(s[1..]);
      assert forall i :: 1 <= i < |s| ==> s[i] == s[1..][i - 1];
    }
  }

  /** No word character is whitespace. */
  lemma WordCharsAreNotSpace(c: char)
    requires IsWordChar(c)
    ensures !IsSpace(c)
  {
  }

  // ---------------------------------------------------------------------------
  // The credential rules
  // ---------------------------------------------------------------------------

  const MinUsername: nat := 3
  const MaxUsername: nat := 32
  const MinPassword: nat := 8

  /** The login and registration rule for a username: non-empty, 3 to 32
      code units long, only word characters. Lengths are `.length`, counted in
      UTF-16 code units. */
  predicate UsernameOk(u: string) {
    && u != []
    && MinUsername <= JsLength(u) <= MaxUsername
    && MatchesWordPattern(u)
  }

  /** The profile-settings rule for a new name adds that it must not be blank
      after trimming. */
  predicate NewNameOk(u: string) {
    && Trim(u) != []
    && MinUsername <= JsLength(u) <= MaxUsername
    && MatchesWordPattern(u)
  }

  /** The two username rules accept the same names: a name of word characters
      is never blank, and a non-empty name is long enough only if it has three
      characters anyway. */
  lemma UsernameRulesAgree(u: string)
    ensures UsernameOk(u) <==> NewNameOk(u)
  {
    if NewNameOk(u) || UsernameOk(u) {
      WordPatternMeansWordChars(u);
      if Trim(u) == [] {
        assert IsBlank(u);
        WordCharsAreNotSpace(u[0]);
        assert false;
      }
    }
  }

  /** A password is accepted when it is non-empty and at least 8 code units
      long. */
  predicate PasswordOk(p: string) {
    p != [] && JsLength(p) >= MinPassword
  }

  /** Four emoji make an acceptable password: eight code units, four characters. */
  lemma FourEmojiPassword()
    ensures |"\U{1F600}\U{1F600}\U{1F600}\U{1F600}"| == 4
    ensures PasswordOk("\U{1F600}\U{1F600}\U{1F600}\U{1F600}")
  {
    var e := "\U{1F600}";
    AstralCharCountsTwice();
    JsLengthAppend(e, e);
    JsLengthAppend(e + e, e);
    JsLengthAppend(e + e + e, e);
    assert e + e + e + e == "\U{1F600}\U{1F600}\U{1F600}\U{1F600}";
  }

  // ---------------------------------------------------------------------------
  // Per-field errors
  // ---------------------------------------------------------------------------

  datatype Field = UsernameField | PasswordField | ConfirmField

  /** The messages a form shows; a field is in the map while it shows one.
      Every message is non-empty, so "has an error" is exactly "is a key". */
  type Errors = map<Field, string>

  /** The error map `validateForm` builds: one entry for each failing check. */
  function ErrorsFor(checks: map<Field, (bool, string)>): (e: Errors)
    ensures forall f :: f in e <==> f in checks && !checks[f].0
    ensures forall f :: f in e ==> e[f] == checks[f].1
  {
    map f | f in checks && !checks[f].0 :: checks[f].1
  }

  /** Typing into a field removes that field's error and leaves every other
      error in place. */
  function ClearOnEdit(e: Errors, field: Field): (e': Errors)
    ensures field !in e'
    ensures forall f :: f != field ==> (f in e' <==> f in e) && (f in e ==> e'[f] == e[f])
  {
    e - {field}
  }
}
