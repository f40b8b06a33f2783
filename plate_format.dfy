/** The plate classifier of the browser client: `validatePlate`, which re-cleans
    its input and tests it against the two fixed plate grammars that the vehicle
    type selector allows. */
module PlateFormat {
  import opened PlateText

  /** The `type` field of a validated plate. */
  datatype PlateType = FourWheeled | TwoWheeled | Unknown

  /** The strings the client uses for each plate type. */
  function TypeName(t: PlateType): string {
    match t
    case FourWheeled => "Four Wheeled"
    case TwoWheeled => "Two Wheeled"
    case Unknown => "Unknown"
  }

  /** The object `{plate, type}` that `validatePlate` returns. */
  datatype ValidatedPlate = ValidatedPlate(plate: string, kind: PlateType)

  /** The selector values `validatePlate` recognises. */
  const BothSelector: string := "both"
  const FourWheeledSelector: string := "Four Wheeled"
  const TwoWheeledSelector: string := "Two Wheeled"

  /** The sentinel plate text returned when nothing matches. */
  const InvalidPlateText: string := "Invalid plate format"

  const InvalidPlate: ValidatedPlate := ValidatedPlate(InvalidPlateText, Unknown)

  /** `/^[A-Z]{3}\d{4}$/`: three capital letters, then four digits. */
  predicate FourWheeledFormat(t: string) {
    |t| == 7 &&
    (forall i :: 0 <= i < 3 ==> IsUpper(t[i])) &&
    (forall i :: 3 <= i < 7 ==> IsDigit(t[i]))
  }

  /** First alternative of the two-wheeled grammar, `^\d{3}[A-Z]{3}$`. */
  predicate DigitsThenLetters(t: string) {
    |t| == 6 &&
    (forall i :: 0 <= i < 3 ==> IsDigit(t[i])) &&
    (forall i :: 3 <= i < 6 ==> IsUpper(t[i]))
  }

  /** Second alternative of the two-wheeled grammar, `^[A-Z]{1}\d{3}[A-Z]{2}$`. */
  predicate LetterDigitsLetters(t: string) {
    |t| == 6 &&
    IsUpper(t[0]) &&
    (forall i :: 1 <= i < 4 ==> IsDigit(t[i])) &&
    (forall i :: 4 <= i < 6 ==> IsUpper(t[i]))
  }

  /** `/^\d{3}[A-Z]{3}$|^[A-Z]{1}\d{3}[A-Z]{2}$/`. */
  predicate TwoWheeledFormat(t: string) {
    DigitsThenLetters(t) || LetterDigitsLetters(t)
  }

  /** A plate text that one of the two grammars accepts. */
  predicate IsPlate(t: string) {
    FourWheeledFormat(t) || TwoWheeledFormat(t)
  }

  /** A validated plate whose type agrees with its text: a recognised type
      carries a text of that grammar, `Unknown` carries the sentinel. */
  predicate Consistent(v: ValidatedPlate) {
    match v.kind
    case FourWheeled => FourWheeledFormat(v.plate)
    case TwoWheeled => TwoWheeledFormat(v.plate)
    case Unknown => v.plate == InvalidPlateText
  }

  /** Which grammars the selector lets the text pass. */
  predicate Admitted(t: string, vehicleType: string) {
    (vehicleType == BothSelector && IsPlate(t)) ||
    (vehicleType == FourWheeledSelector && FourWheeledFormat(t)) ||
    (vehicleType == TwoWheeledSelector && TwoWheeledFormat(t))
  }

  /** `validatePlate(text, vehicleType)`. With `"both"` the four-wheeled
      grammar is tried first; any selector other than the three known ones
      yields the sentinel. */
  function Validate(text: string, vehicleType: string): (r: ValidatedPlate)
    ensures Consistent(r)
    ensures r.kind == Unknown <==> r.plate == InvalidPlateText
    ensures TypeName(r.kind) == "Unknown" <==> r.plate == InvalidPlateText
    ensures r.kind != Unknown <==> Admitted(Clean(text), vehicleType)
    ensures r.kind != Unknown ==> r.plate == Clean(text) && (|r.plate| == 6 || |r.plate| == 7)
    ensures r.kind == FourWheeled ==> vehicleType != TwoWheeledSelector
    ensures r.kind == TwoWheeled ==> vehicleType != FourWheeledSelector
  {
    var t := Clean(text);
    if vehicleType == BothSelector then
      if FourWheeledFormat(t) then ValidatedPlate(t, FourWheeled)
      else if TwoWheeledFormat(t) then ValidatedPlate(t, TwoWheeled)
      else InvalidPlate
    else if vehicleType == FourWheeledSelector then
      if FourWheeledFormat(t) then ValidatedPlate(t, FourWheeled)
      else InvalidPlate
    else if vehicleType == TwoWheeledSelector then
      if TwoWheeledFormat(t) then ValidatedPlate(t, TwoWheeled)
      else InvalidPlate
    else InvalidPlate
  }

  /** The two grammars never accept the same text (their lengths differ), so
      the four-wheeled-first order of the `"both"` selector never decides a tie. */
  lemma FormatsDisjoint(t: string)
    ensures !(FourWheeledFormat(t) && TwoWheeledFormat(t))
  {
  }

  /** Every grammar-accepted text is already clean. */
  lemma PlateIsClean(t: string)
    requires IsPlate(t)
    ensures AllPlateChars(t)
  {
  }

  /** With `"both"`, the type is decided by the grammar the cleaned text matches. */
  lemma ValidateBoth(text: string)
    ensures FourWheeledFormat(Clean(text)) ==>
              Validate(text, BothSelector) == ValidatedPlate(Clean(text), FourWheeled)
    ensures TwoWheeledFormat(Clean(text)) ==>
              Validate(text, BothSelector) == ValidatedPlate(Clean(text), TwoWheeled)
    ensures !IsPlate(Clean(text)) ==> Validate(text, BothSelector) == InvalidPlate
  {
    FormatsDisjoint(Clean(text));
  }

  /** A selector other than the three known ones always yields the sentinel. */
  lemma UnknownSelectorIsInvalid(text: string, vehicleType: string)
    requires vehicleType != BothSelector
    requires vehicleType != FourWheeledSelector
    requires vehicleType != TwoWheeledSelector
    ensures Validate(text, vehicleType) == InvalidPlate
  {
  }

  /** The single-grammar selectors accept a subset of what `"both"` accepts and agree with it. */
  lemma SelectorsRefineBoth(text: string, vehicleType: string)
    requires Validate(text, vehicleType).kind != Unknown
    ensures Validate(text, BothSelector) == Validate(text, vehicleType)
  {
    FormatsDisjoint(Clean(text));
  }

  /** Validation only depends on the cleaned text: cleaning first changes nothing. */
  lemma {:induction false} ValidateIgnoresNoise(a: string, b: string, vehicleType: string)
    requires Clean(a) == Clean(b)
    ensures Validate(a, vehicleType) == Validate(b, vehicleType)
  {
  }

  /** Validating a text that was already cleaned gives the same answer. */
  lemma {:induction false} ValidateCleaned(text: string, vehicleType: string)
    ensures Validate(Clean(text), vehicleType) == Validate(text, vehicleType)
  {
    CleanIdempotent(text);
  }

  /** A text one grammar accepts is classified as itself under `"both"`. */
  lemma {:induction false} ValidatePlateUnderBoth(t: string)
    requires IsPlate(t)
    ensures Validate(t, BothSelector)
              == ValidatedPlate(t, if FourWheeledFormat(t) then FourWheeled else TwoWheeled)
  {
    PlateIsClean(t);
    CleanUnchangedIff(t);
  }

  /** The four-wheeled example `ABC1234`: accepted by `"both"`, refused by `"Two Wheeled"`. */
  lemma ValidateFourWheeledExample()
    ensures Validate("ABC1234", BothSelector) == ValidatedPlate("ABC1234", FourWheeled)
    ensures Validate("ABC1234", TwoWheeledSelector) == InvalidPlate
  {
    assert FourWheeledFormat("ABC1234");
    ValidatePlateUnderBoth("ABC1234");
  }

  /** Separators are stripped before the grammar is tried. */
  lemma ValidateSeparatorExample()
    ensures Validate("ABC-1234", BothSelector) == ValidatedPlate("ABC1234", FourWheeled)
  {
    var letters, digits := "ABC", "1234";
    assert FourWheeledFormat(letters + digits);
    ValidatePlateUnderBoth(letters + digits);
    PlateIsClean(letters + digits);
    CleanUnchangedIff(letters + digits);
    CleanDropsNoise(letters, "-", digits);
    assert letters + "-" + digits == "ABC-1234";
    assert letters + digits == "ABC1234";
    ValidateIgnoresNoise("ABC-1234", "ABC1234", BothSelector);
  }

  /** The first two-wheeled alternative, `123ABC`. */
  lemma ValidateDigitsFirstExample()
    ensures Validate("123ABC", BothSelector) == ValidatedPlate("123ABC", TwoWheeled)
  {
    assert DigitsThenLetters("123ABC");
    ValidatePlateUnderBoth("123ABC");
  }

  /** The second two-wheeled alternative, `A123BC`. */
  lemma ValidateLetterFirstExample()
    ensures Validate("A123BC", BothSelector) == ValidatedPlate("A123BC", TwoWheeled)
  {
    assert LetterDigitsLetters("A123BC");
    ValidatePlateUnderBoth("A123BC");
  }

  /** A text too short for either grammar, and a lower-case one (lower case is dropped, not upper-cased). */
  lemma ValidateInvalidExamples()
    ensures Validate("AB12", BothSelector) == InvalidPlate
    ensures Validate("abc1234", BothSelector) == InvalidPlate
  {
    assert |Clean("AB12")| <= 4;
    assert |Clean("abc1234")| == 4 by {
      CleanUnchangedIff("1234");
      CleanAppend("abc", "1234");
      assert "abc1234" == "abc" + "1234";
    }
  }
}
