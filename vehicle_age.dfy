/**
  calculate_age, calculate_age_for_utilization_fee and the form fields that
  get_customs_fees_russia posts to the remote calculator. The current date,
  datetime.now() in the source, is a parameter.
 */
module VehicleAge {
  import opened Wrappers
  import opened Text

  /** The current year and month. */
  datatype Clock = Clock(year: int, month: int)

  /** The age categories of the remote calculator, youngest first. */
  datatype AgeCategory = UpTo3 | From3To5 | From5To7 | Over7

  /** The category as the calculator's form field spells it. */
  function Label(a: AgeCategory): string
  {
    match a
    case UpTo3 => "0-3"
    case From3To5 => "3-5"
    case From5To7 => "5-7"
    case Over7 => "7-0"
  }

  /** Position of a category in age order. */
  function Rank(a: AgeCategory): nat
  {
    match a
    case UpTo3 => 0
    case From3To5 => 1
    case From5To7 => 2
    case Over7 => 3
  }

  /** Months from the first of the manufacture month to the current month; negative for a future date. */
  function MonthsElapsed(now: Clock, year: int, month: int): int
  {
    (now.year - year) * 12 + now.month - month
  }

  /**
    The category of an age in months: under three years, then two-year steps,
    with everything from seven years on in the last one.
   */
  function Bucket(months: int): (a: AgeCategory)
    ensures Rank(a) == if months < 36 then 0 else if months >= 84 then 3 else (months - 12) / 24
  {
    if months < 36 then UpTo3
    else if 36 <= months < 60 then From3To5
    else if 60 <= months < 84 then From5To7
    else Over7
  }

  /** A car that has been around longer never lands in a younger category. */
  lemma BucketMonotone(m1: int, m2: int)
    requires m1 <= m2
    ensures Rank(Bucket(m1)) <= Rank(Bucket(m2))
  {
  }

  /** The month as the caller passes it: a number, or text that may carry leading zeros. */
  datatype MonthArg = MonthNumber(n: int) | MonthText(s: string)

  /** The ValueErrors calculate_age can raise. */
  datatype AgeError =
    | BadMonthText   // int() of the month text with its zeros stripped fails
    | BadDate        // datetime() rejects the year or the month

  /** `int(month.lstrip("0"))` for text, `int(month)` for a number; None where int() raises. */
  function MonthValue(month: MonthArg): Option<int>
  {
    match month
    case MonthNumber(n) => Some(n)
    case MonthText(s) => ParseInt(LStripZeros(s))
  }

  /**
    calculate_age: the category of the months elapsed between the first of the
    manufacture month and the current month. datetime() accepts years 1 to 9999
    and months 1 to 12 only.
   */
  function CalculateAge(year: int, month: MonthArg, now: Clock): (r: Result<AgeCategory, AgeError>)
    ensures r.Ok? ==> 1 <= year <= 9999
    ensures r.Ok? <==> exists m :: MonthValue(month) == Some(m) && 1 <= m <= 12 && 1 <= year <= 9999
    ensures r.Ok? ==>
      var months := MonthsElapsed(now, year, MonthValue(month).value);
      Rank(r.value) == if months < 36 then 0 else if months >= 84 then 3 else (months - 12) / 24
    ensures month == MonthText("0") ==> r == Err(BadMonthText)
    ensures month.MonthNumber? && !(1 <= month.n <= 12) ==> r == Err(BadDate)
  {
    match MonthValue(month)
    case None => Err(BadMonthText)
    case Some(m) =>
      if !(1 <= m <= 12) || !(1 <= year <= 9999) then Err(BadDate)
      else Ok(Bucket(MonthsElapsed(now, year, m)))
  }

  /** Leading zeros on a month given as text are ignored: "08" and 8 give the same category. */
  lemma {:induction false} LeadingZerosIgnored(year: int, m: int, zeros: nat, now: Clock)
    requires 1 <= m <= 12
    ensures CalculateAge(year, MonthText(Repeat('0', zeros) + Decimal(m)), now) == CalculateAge(year, MonthNumber(m), now)
  {
    LStripZerosPadded(zeros, Decimal(m));
    DecimalValue(m);
  }

  /** A month given as "00" or any other run of zeros alone is rejected. */
  lemma {:induction false} AllZerosRejected(year: int, zeros: nat, now: Clock)
    ensures CalculateAge(year, MonthText(Repeat('0', zeros)), now) == Err(BadMonthText)
  {
    LStripZerosPadded(zeros, "");
    assert Repeat('0', zeros) + "" == Repeat('0', zeros);
  }

  /**
    calculate_age_for_utilization_fee: the current year minus the manufacture
    year; adding it back to the manufacture year gives the current year.
   */
  function AgeForUtilizationFee(year: int, now: Clock): (age: int)
    ensures year + age == now.year
    ensures age >= 0 <==> year <= now.year
  {
    now.year - year
  }

  /** The form fields posted to the remote customs calculator. */
  datatype Payload = Payload(
    owner: int,       // 1: a private person
    age: string,      // the age category label
    engine: int,      // engine type, 1 for petrol by default
    power: int,       // horsepower, always 1
    powerUnit: int,   // 1: horsepower
    value: int,       // engine volume in cm3
    price: int,       // price in won
    curr: string)     // "KRW"

  /**
    The payload get_customs_fees_russia builds. Its age comes from
    CalculateAge, whose ValueError escapes before anything is sent; the
    request itself and the response are not part of this model.
   */
  function CustomsRequest(engineVolume: int, carPrice: int, carYear: int, carMonth: MonthArg, now: Clock,
                          engineType: int := 1): (r: Result<Payload, AgeError>)
    ensures r.Ok? <==> CalculateAge(carYear, carMonth, now).Ok?
    ensures r.Err? ==> r.error == CalculateAge(carYear, carMonth, now).error
    ensures r.Ok? ==> r.value.age in {"0-3", "3-5", "5-7", "7-0"}
    ensures r.Ok? ==> r.value.age == Label(CalculateAge(carYear, carMonth, now).value)
    ensures r.Ok? ==> r.value.owner == 1 && r.value.power == 1 && r.value.powerUnit == 1 && r.value.curr == "KRW"
    ensures r.Ok? ==> r.value.engine == engineType && r.value.value == engineVolume && r.value.price == carPrice
  {
    match CalculateAge(carYear, carMonth, now)
    case Err(e) => Err(e)
    case Ok(a) =>
      Ok(Payload(owner := 1, age := Label(a), engine := engineType, power := 1, powerUnit := 1,
                 value := engineVolume, price := carPrice, curr := "KRW"))
  }

  /** Distinct categories are posted as distinct labels, so the label determines the category. */
  lemma LabelInjective(a: AgeCategory, b: AgeCategory)
    requires Label(a) == Label(b)
    ensures a == b
  {
  }
}
