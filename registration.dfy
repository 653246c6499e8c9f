/** Validation of the registration field of an MOT lookup request: the
    raw field must be 2 to 8 characters long; spaces are then removed, the
    rest is uppercased, and the result must consist of 2 to 8 characters
    from A-Z and 0-9. */
module Registration {
  import opened MotData
  import opened Seqs
  import opened Text

  /** Why a registration is refused: the field length bounds checked
      before the validator runs, or the plate format checked by it. */
  datatype RegistrationError = TooShort | TooLong | InvalidFormat

  const MinLength := 2
  const MaxLength := 8

  predicate NotSpace(c: char) { c != ' ' }

  predicate PlateChar(c: char) { 'A' <= c <= 'Z' || '0' <= c <= '9' }

  /** A character the validator accepts before uppercasing. */
  predicate AsciiAlphanumeric(c: char) { 'A' <= c <= 'Z' || 'a' <= c <= 'z' || '0' <= c <= '9' }

  /** The whole string matches `[A-Z0-9]{2,8}`. */
  predicate PlateForm(s: string)
  {
    MinLength <= |s| <= MaxLength && forall i :: 0 <= i < |s| ==> PlateChar(s[i])
  }

  /** The corrected validator: the plate pattern must match the whole
      normalised string. */
  function ValidateRegistration(raw: string): (r: Result<string, RegistrationError>)
    ensures r.Ok? ==> PlateForm(r.value) && ' ' !in r.value
  {
    if |raw| < MinLength then Err(TooShort)
    else if |raw| > MaxLength then Err(TooLong)
    else
      var v := Upper(Filter(raw, NotSpace));
      if PlateForm(v) then Ok(v) else Err(InvalidFormat)
  }

  lemma UpperPlateChar(c: char)
    ensures PlateChar(UpperChar(c)) <==> AsciiAlphanumeric(c)
  {
  }

  /** A registration is accepted exactly when the raw field has 2 to 8
      characters, at least two of them are not spaces, and every one that
      is not a space is an ASCII letter (of either case) or a digit; each
      refusal carries the reason the code raises. */
  lemma ValidateRegistrationAccepts(raw: string)
    ensures ValidateRegistration(raw).Ok? <==>
              && MinLength <= |raw| <= MaxLength
              && |Filter(raw, NotSpace)| >= MinLength
              && forall c :: c in raw && c != ' ' ==> AsciiAlphanumeric(c)
    ensures ValidateRegistration(raw) == Err(TooShort) <==> |raw| < MinLength
    ensures ValidateRegistration(raw) == Err(TooLong) <==> |raw| > MaxLength
    ensures ValidateRegistration(raw).Ok? ==> |ValidateRegistration(raw).value| == |Filter(raw, NotSpace)|
  {
    var f := Filter(raw, NotSpace);
    FilterMembers(raw, NotSpace);
    var v := Upper(f);
    forall i | 0 <= i < |f| ensures PlateChar(v[i]) <==> AsciiAlphanumeric(f[i]) {
      UpperPlateChar(f[i]);
    }
    if forall c :: c in raw && c != ' ' ==> AsciiAlphanumeric(c) {
      assert forall i :: 0 <= i < |f| ==> f[i] in f;
    } else {
      var c :| c in raw && c != ' ' && !AsciiAlphanumeric(c);
      assert c in f;
      var i :| 0 <= i < |f| && f[i] == c;
      assert !PlateChar(v[i]);
    }
  }

  /** Validating an accepted registration gives it back unchanged. */
  lemma ValidateRegistrationIdempotent(raw: string)
    requires ValidateRegistration(raw).Ok?
    ensures ValidateRegistration(ValidateRegistration(raw).value) == ValidateRegistration(raw)
  {
    var v := ValidateRegistration(raw).value;
    assert forall i :: 0 <= i < |v| ==> NotSpace(v[i]);
    FilterKeepsAll(v, NotSpace);
    assert Upper(v) == v;
  }

  // ---------------------------------------------------------------------
  // The validator as written

  /** Python's `re.match(r'^[A-Z0-9]{2,8}$', v)`: `$` matches at the end of
      the string and also just before a newline that ends it. */
  predicate PlateFormAsWritten(s: string)
  {
    || PlateForm(s)
    || (|s| >= 1 && s[|s| - 1] == '\n' && PlateForm(s[..|s| - 1]))
  }

  function ValidateRegistrationAsWritten(raw: string): (r: Result<string, RegistrationError>)
    ensures r.Ok? ==> PlateFormAsWritten(r.value)
  {
    if |raw| < MinLength then Err(TooShort)
    else if |raw| > MaxLength then Err(TooLong)
    else
      var v := Upper(Filter(raw, NotSpace));
      if PlateFormAsWritten(v) then Ok(v) else Err(InvalidFormat)
  }

  /** "AB" followed by a newline is accepted as written, and the accepted
      value still ends with the newline. */
  lemma TrailingNewlineAccepted()
    ensures ValidateRegistrationAsWritten("AB\n") == Ok("AB\n")
    ensures !PlateForm("AB\n")
    ensures ValidateRegistration("AB\n") == Err(InvalidFormat)
  {
    var raw := "AB\n";
    NormalisedUnchanged(raw);
    assert raw[..|raw| - 1] == "AB";
    assert PlateForm(raw[..|raw| - 1]);
    assert !PlateChar(raw[2]);
  }

  /** A string without spaces or small letters is its own normal form. */
  lemma NormalisedUnchanged(s: string)
    requires forall i :: 0 <= i < |s| ==> s[i] != ' ' && !('a' <= s[i] <= 'z')
    ensures Upper(Filter(s, NotSpace)) == s
  {
    FilterKeepsAll(s, NotSpace);
    assert Upper(s) == s;
  }

  /** Without a newline in the input the two validators agree. */
  lemma AsWrittenAgreesWithoutNewline(raw: string)
    requires '\n' !in raw
    ensures ValidateRegistrationAsWritten(raw) == ValidateRegistration(raw)
  {
    var f := Filter(raw, NotSpace);
    FilterMembers(raw, NotSpace);
    var v := Upper(f);
    if |v| >= 1 {
      assert f[|v| - 1] in f;
    }
  }
}
