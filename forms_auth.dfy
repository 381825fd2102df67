/**
 * The login and PIN-change forms: the field stage every required text
 * field goes through (strip, non-empty, maximum length), the
 * personnel-number and PIN validators, and the new-PIN confirmation.
 */
module AuthForms {
  import opened Common
  import opened PyStr

  const PersonnelNumberMaxLength: nat := 20
  const PinMaxLength: nat := 6
  const PinMinLength: nat := 4

  datatype AuthError =
    | Required
    | TooLong
    | EnterPersonnelNumber
    | PersonnelNumberNotDigits
    | EnterPin
    | PinNotDigits
    | PinLengthOutOfRange
    | PinsDiffer

  /** A well-formed PIN: four to six digits. */
  predicate IsPin(s: string) {
    IsDigitString(s) && PinMinLength <= |s| <= PinMaxLength
  }

  /** Stripping an already stripped value changes nothing. */
  lemma StripIdempotent(s: string)
    ensures Strip(Strip(s)) == Strip(s)
  {
  }

  /**
   * The field stage of a required text field with a maximum length: the
   * value is stripped, an empty value is missing, a longer one too long.
   */
  function CharFieldClean(raw: string, maxLength: nat): (r: Result<string, AuthError>)
    ensures r.Ok? <==> Strip(raw) != [] && |Strip(raw)| <= maxLength
    ensures r.Ok? ==> r.value == Strip(raw)
    ensures r == Err(Required) <==> Strip(raw) == []
  {
    var v := Strip(raw);
    if v == [] then Err(Required) else if |v| > maxLength then Err(TooLong) else Ok(v)
  }

  /** `clean_personnel_number`: non-empty after strip, then digits only. */
  function CleanPersonnelNumber(value: string): (r: Result<string, AuthError>)
    ensures r.Ok? <==> IsDigitString(Strip(value))
    ensures r.Ok? ==> r.value == Strip(value)
    ensures r == Err(EnterPersonnelNumber) <==> Strip(value) == []
  {
    var v := Strip(value);
    if v == [] then Err(EnterPersonnelNumber)
    else if !IsDigitString(v) then Err(PersonnelNumberNotDigits)
    else Ok(v)
  }

  /** `clean_pin` of the login form: non-empty, digits only, then four to six long, in that order. */
  function CleanPin(value: string): (r: Result<string, AuthError>)
    ensures r.Ok? <==> IsPin(Strip(value))
    ensures r.Ok? ==> r.value == Strip(value)
    ensures r == Err(EnterPin) <==> Strip(value) == []
    ensures r == Err(PinNotDigits) <==> Strip(value) != [] && !IsDigitString(Strip(value))
  {
    var v := Strip(value);
    if v == [] then Err(EnterPin)
    else if !IsDigitString(v) then Err(PinNotDigits)
    else if |v| < PinMinLength || |v| > PinMaxLength then Err(PinLengthOutOfRange)
    else Ok(v)
  }

  /** `clean_new_pin`: digits only (so an empty value fails here), then four to six long. */
  function CleanNewPin(value: string): (r: Result<string, AuthError>)
    ensures r.Ok? <==> IsPin(Strip(value))
    ensures r.Ok? ==> r.value == Strip(value)
    ensures r == Err(PinNotDigits) <==> !IsDigitString(Strip(value))
  {
    var v := Strip(value);
    if !IsDigitString(v) then Err(PinNotDigits)
    else if |v| < PinMinLength || |v| > PinMaxLength then Err(PinLengthOutOfRange)
    else Ok(v)
  }

  /**
   * The new-PIN rule accepts exactly the PINs the login rule accepts; they
   * differ only in how an empty value is reported.
   */
  lemma NewPinRuleMatchesLoginRule(value: string)
    ensures CleanNewPin(value).Ok? <==> CleanPin(value).Ok?
    ensures CleanNewPin(value).Ok? ==> CleanNewPin(value) == CleanPin(value)
    ensures Strip(value) == [] ==> CleanNewPin(value) == Err(PinNotDigits) && CleanPin(value) == Err(EnterPin)
  {
  }

  /** The value a field stage leaves in the cleaned data, if it passed. */
  function Cleaned(r: Result<string, AuthError>): (o: Option<string>)
    ensures o.Some? <==> r.Ok?
  {
    if r.Ok? then Some(r.value) else None
  }

  /** A field stage followed by the field's own validator. */
  function AndThen(r: Result<string, AuthError>, validate: string -> Result<string, AuthError>): Result<string, AuthError> {
    if r.Err? then r else validate(r.value)
  }

  /** The personnel-number field of the login form, field stage included. */
  function PersonnelNumberField(raw: string): Result<string, AuthError> {
    AndThen(CharFieldClean(raw, PersonnelNumberMaxLength), CleanPersonnelNumber)
  }

  /** The PIN field of the login form, field stage included. */
  function LoginPinField(raw: string): Result<string, AuthError> {
    AndThen(CharFieldClean(raw, PinMaxLength), CleanPin)
  }

  /** The new-PIN field of the change form, field stage included. */
  function NewPinField(raw: string): Result<string, AuthError> {
    AndThen(CharFieldClean(raw, PinMaxLength), CleanNewPin)
  }

  /**
   * Through the form, a personnel number passes exactly when it is 1 to 20
   * digits after stripping; the validator's own emptiness error never shows,
   * because the field stage already reports a blank value as missing.
   */
  lemma PersonnelNumberFieldAccepts(raw: string)
    ensures PersonnelNumberField(raw).Ok? <==>
      IsDigitString(Strip(raw)) && |Strip(raw)| <= PersonnelNumberMaxLength
    ensures PersonnelNumberField(raw).Ok? ==> PersonnelNumberField(raw).value == Strip(raw)
    ensures PersonnelNumberField(raw) != Err(EnterPersonnelNumber)
  {
    StripIdempotent(raw);
  }

  /**
   * Through the form, a login PIN passes exactly when it is a PIN after
   * stripping; neither the validator's emptiness error nor its length error
   * for long values can show, as the field stage reports those first.
   */
  lemma LoginPinFieldAccepts(raw: string)
    ensures LoginPinField(raw).Ok? <==> IsPin(Strip(raw))
    ensures LoginPinField(raw) != Err(EnterPin)
    ensures LoginPinField(raw) == Err(PinLengthOutOfRange) ==> |Strip(raw)| < PinMinLength
  {
    StripIdempotent(raw);
  }

  /**
   * `PINChangeForm.clean`: a mismatch is reported only when both values are
   * in the cleaned data and non-empty.
   */
  function PinChangeClean(newPin: Option<string>, confirmPin: Option<string>): (r: Outcome<AuthError>)
    ensures r.Fail? <==> (newPin.Some? && confirmPin.Some? && newPin.value != [] && confirmPin.value != []
                          && newPin.value != confirmPin.value)
    ensures r.Fail? ==> r.error == PinsDiffer
  {
    if newPin.Some? && newPin.value != [] && confirmPin.Some? && confirmPin.value != []
       && newPin.value != confirmPin.value
    then Fail(PinsDiffer)
    else Pass
  }

  /**
   * The change form without its current-PIN field: valid when both field
   * stages and validators pass and the form-level check passes.
   */
  predicate PinChangeValid(newRaw: string, confirmRaw: string) {
    var n := NewPinField(newRaw);
    var c := CharFieldClean(confirmRaw, PinMaxLength);
    n.Ok? && c.Ok? && PinChangeClean(Cleaned(n), Cleaned(c)).Pass?
  }

  /**
   * The change form accepts exactly a well-formed new PIN typed the same
   * way twice, up to surrounding whitespace.
   */
  lemma PinChangeAcceptsMatchingPins(newRaw: string, confirmRaw: string)
    ensures PinChangeValid(newRaw, confirmRaw) <==> IsPin(Strip(newRaw)) && Strip(confirmRaw) == Strip(newRaw)
  {
    StripIdempotent(newRaw);
  }
}
