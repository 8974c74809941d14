/** The passport parsing of the people endpoints (internal/handler/people.go),
    a standalone parser: split on a space, check the byte lengths, parse both
    parts as integers. Its error-to-status tables are modelled too; the
    repository behind it is not. */
module PeopleHandler {
  import opened Wrappers
  import opened Errors
  import opened Http
  import opened GoLib
  import UserHandler

  const PassportSerieLength: nat := 4
  const PassportNumberLength: nat := 6

  /** `CreatePeople`'s checks on the passport string, in order, giving the
      series and number the service receives or the message answered with
      400. Lengths are Go's `len`, in UTF-8 bytes. */
  function ParsePassport(passport: string): (r: Result<(int, int), string>)
    ensures passport == "" ==> r == Failure("Passport number is required")
    ensures passport != "" && Count(passport, ' ') != 1 ==> r == Failure("Invalid passport number format")
    ensures r.Success? ==> Count(passport, ' ') == 1
  {
    if passport == "" then Failure("Passport number is required")
    else
      var parts := Split(passport, ' ');
      if |parts| != 2 then Failure("Invalid passport number format")
      else if Utf8Len(parts[0]) != PassportSerieLength || Utf8Len(parts[1]) != PassportNumberLength then
        Failure("Invalid passport series or number length")
      else
        match Atoi(parts[0])
        case Failure(_) => Failure("Invalid passport series format")
        case Success(passportSerie) =>
          match Atoi(parts[1])
          case Failure(_) => Failure("Invalid passport number format")
          case Success(passportNumber) => Success((passportSerie, passportNumber))
  }

  /** What the parser accepts, in both directions: a space-free series of 4
      bytes and a space-free number of 6 bytes, joined by one space, that
      both parse as integers; and the service receives exactly those two
      integers. */
  lemma {:induction false} ParsePassportAccepts(serie: string, number: string)
    requires ' ' !in serie && ' ' !in number
    ensures ParsePassport(serie + " " + number).Success? <==>
      && Utf8Len(serie) == PassportSerieLength && Utf8Len(number) == PassportNumberLength
      && Atoi(serie).Success? && Atoi(number).Success?
    ensures ParsePassport(serie + " " + number).Success? ==>
      ParsePassport(serie + " " + number).value == (Atoi(serie).value, Atoi(number).value)
  {
    var parts := [serie, number];
    assert Join(parts, ' ') == serie + " " + number by {
      assert Join(parts[1..], ' ') == number;
    }
    SplitJoin(parts, ' ');
  }

  /** Every string the user endpoints' format check accepts parses here, to
      the decimal values of its two digit groups. */
  lemma ParsePassportOfFormat(passport: string)
    requires UserHandler.PassportFormat(passport)
    ensures ParsePassport(passport) ==
      Success((DecimalValue(passport[..PassportSerieLength]), DecimalValue(passport[PassportSerieLength + 1..])))
  {
    var serie := passport[..PassportSerieLength];
    var number := passport[PassportSerieLength + 1..];
    assert passport == serie + " " + number;
    assert ' ' !in serie && ' ' !in number by {
      assert forall i :: 0 <= i < |serie| ==> IsDigit(serie[i]);
      assert forall i :: 0 <= i < |number| ==> IsDigit(number[i]);
    }
    AtoiDigits(serie);
    AtoiDigits(number);
    ParsePassportAccepts(serie, number);
  }

  /** The converse does not hold: Atoi accepts a sign, so a signed series of
      three digits and a signed number of five, such as "+123 -12345", pass
      here although the format check rejects them. */
  lemma ParsePassportAcceptsSigns(serie: string, number: string)
    requires |serie| == PassportSerieLength && serie[0] == '+' && AllDigits(serie[1..])
    requires |number| == PassportNumberLength && number[0] == '-' && AllDigits(number[1..])
    ensures ParsePassport(serie + " " + number) ==
      Success((DecimalValue(serie[1..]) as int, -(DecimalValue(number[1..]) as int)))
    ensures !UserHandler.PassportFormat(serie + " " + number)
  {
    SignedDigits(serie);
    SignedDigits(number);
    ParsePassportAccepts(serie, number);
    assert (serie + " " + number)[..PassportSerieLength][0] == '+';
  }

  /** A sign followed by at most 18 digits: no space, one byte per character,
      and Atoi reads it with its sign. */
  lemma SignedDigits(s: string)
    requires HasSign(s) && AllDigits(s[1..]) && 1 < |s| <= 19
    ensures ' ' !in s
    ensures Utf8Len(s) == |s|
    ensures Atoi(s) == Success(if s[0] == '-' then -(DecimalValue(s[1..]) as int) else DecimalValue(s[1..]))
  {
    assert forall i :: 0 < i < |s| ==> s[i] == s[1..][i - 1];
    AtoiSignedDigits(s);
  }

  /** `GetPeople`'s checks: both query values present, both integers; no
      length check. */
  function GetPeopleQuery(serie: string, number: string): (r: Result<(int, int), string>)
    ensures r.Success? <==> Atoi(serie).Success? && Atoi(number).Success?
    ensures r.Success? ==> r.value == (Atoi(serie).value, Atoi(number).value)
    ensures serie == "" || number == "" ==> r == Failure("Passport series and number are required")
  {
    if serie == "" || number == "" then Failure("Passport series and number are required")
    else
      match Atoi(serie)
      case Failure(_) => Failure("Invalid passport series")
      case Success(passportSerieInt) =>
        match Atoi(number)
        case Failure(_) => Failure("Invalid passport number")
        case Success(passportNumberInt) => Success((passportSerieInt, passportNumberInt))
  }

  /** Any pair of 64-bit integers, written in decimal, reaches the service
      unchanged, negative ones and ones of any length included. */
  lemma GetPeopleQueryOfInts(serie: int, number: int)
    requires MinInt64 <= serie <= MaxInt64 && MinInt64 <= number <= MaxInt64
    ensures GetPeopleQuery(Itoa(serie), Itoa(number)) == Success((serie, number))
  {
    AtoiItoa(serie);
    AtoiItoa(number);
  }

  /** The status `CreatePeople` answers with for the service's outcome. */
  function CreatePeopleStatus<X>(r: Result<X, Error>): (code: int)
    ensures code == StatusOK <==> r.Success?
    ensures code == StatusConflict <==> r.Failure? && Is(r.error, ErrRepositoryDuplicateEntry)
    ensures code in {StatusOK, StatusConflict, StatusInternalServerError}
  {
    match r
    case Success(_) => StatusOK
    case Failure(e) => if Is(e, ErrRepositoryDuplicateEntry) then StatusConflict else StatusInternalServerError
  }

  /** The status `GetPeople` answers with for the service's outcome. */
  function GetPeopleStatus<X>(r: Result<X, Error>): (code: int)
    ensures code == StatusOK <==> r.Success?
    ensures code == StatusNotFound <==> r.Failure? && Is(r.error, ErrRepositoryNoRows)
    ensures code in {StatusOK, StatusNotFound, StatusInternalServerError}
  {
    match r
    case Success(_) => StatusOK
    case Failure(e) => if Is(e, ErrRepositoryNoRows) then StatusNotFound else StatusInternalServerError
  }
}
