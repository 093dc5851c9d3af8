/**
  The chat front end of main.py: the per-chat records in `user_data`, the two
  globals `current_country` and `current_car_type`, and the handlers that move
  a chat through the manual-entry wizard
    year -> month -> engine_volume -> price -> (car_type | None)
  and guard the calculation from an encar link. The calculators of
  calculator.py are not part of this model; they are function parameters that
  either produce the reply text or fail. Outgoing messages are `Reply` values.
 */
module Wizard {
  import opened Wrappers
  import opened Text

  datatype Country = Russia | Kazakhstan | Kyrgyzstan

  datatype CarType = Sedan | Crossover

  /** The values the "step" key takes. */
  datatype Step = YearStep | MonthStep | VolumeStep | PriceStep | CarTypeStep

  /** The "step" key of a record: absent, present but None, or a step. */
  datatype StepKey = Absent | Cleared | At(step: Step)

  /** One chat's dictionary in `user_data`; a missing key is None. */
  datatype Record = Record(
    step: StepKey,
    country: Option<Country>,
    year: Option<int>,
    month: Option<int>,
    engineVolume: Option<int>,
    price: Option<int>)

  /** `{}` */
  const EmptyRecord: Record := Record(Absent, None, None, None, None, None)

  /** `{"step": "year"}` */
  const StartRecord: Record := EmptyRecord.(step := At(YearStep))

  /** `{"country": c}` */
  function CountryRecord(c: Country): Record { EmptyRecord.(country := Some(c)) }

  /** The arguments of `calculate_cost_manual`. */
  datatype Request = Request(
    country: Option<Country>,
    year: int,
    month: int,
    engineVolume: int,
    price: int,
    carType: Option<CarType>)

  /** What the bot sends back, or that a handler died on a missing key. */
  datatype Reply =
    | AskYear | AskMonth | AskVolume | AskPrice | AskCarType
    | BadYear | BadMonth | BadVolume | BadPrice | BadCarType
    | Quote(text: string) | CalculationFailed
    | ChooseCountryFirst | BadLink | LinkQuote(text: string) | LinkFailed
    | CalculationOptions | CountrySelection | Greeting
    | Silent
    | KeyErrorRaised

  /** The prompt that asks for a step's value. */
  function Prompt(s: Step): Reply
  {
    match s
    case YearStep => AskYear
    case MonthStep => AskMonth
    case VolumeStep => AskVolume
    case PriceStep => AskPrice
    case CarTypeStep => AskCarType
  }

  /** The complaint about an invalid value for a step. */
  function Complaint(s: Step): Reply
  {
    match s
    case YearStep => BadYear
    case MonthStep => BadMonth
    case VolumeStep => BadVolume
    case PriceStep => BadPrice
    case CarTypeStep => BadCarType
  }

  /** The step that follows a step once its value is accepted; the car type is asked for Kyrgyzstan only. */
  function Successor(s: Step, country: Option<Country>): StepKey
  {
    match s
    case YearStep => At(MonthStep)
    case MonthStep => At(VolumeStep)
    case VolumeStep => At(PriceStep)
    case PriceStep => if country == Some(Kyrgyzstan) then At(CarTypeStep) else Cleared
    case CarTypeStep => Cleared
  }

  /** The texts each step accepts. */
  ghost predicate Accepts(s: Step, text: string)
  {
    match s
    case YearStep => IsDigitString(text) && 1900 <= DigitsValue(text) <= 2025
    case MonthStep => ParseInt(text).Some? && 1 <= ParseInt(text).value <= 12
    case VolumeStep => IsDigitString(text) && DigitsValue(text) > 0
    case PriceStep => IsDigitString(text) && DigitsValue(text) > 0
    case CarTypeStep => Lower(text) == "седан" || Lower(text) == "кроссовер"
  }

  /** `text.isdigit()` and a value within a year range. */
  function ParseYear(text: string): Option<int>
  {
    if IsDigitString(text) && 1900 <= DigitsValue(text) <= 2025 then Some(DigitsValue(text)) else None
  }

  /** `int(text)` within 1..12; ValueError is None. */
  function ParseMonth(text: string): Option<int>
  {
    match ParseInt(text)
    case Some(m) => if 1 <= m <= 12 then Some(m) else None
    case None => None
  }

  /** `text.isdigit()` and a positive value. */
  function ParsePositive(text: string): Option<int>
  {
    if IsDigitString(text) && DigitsValue(text) > 0 then Some(DigitsValue(text)) else None
  }

  /** The body type named by the text, whatever its case. */
  function ParseCarType(text: string): Option<CarType>
  {
    var t := Lower(text);
    if t == "седан" then Some(Sedan) else if t == "кроссовер" then Some(Crossover) else None
  }

  /** The outcome of one message to the wizard. */
  datatype Transition =
    | Reject(reply: Reply)                      // record unchanged
    | Store(next: Record, reply: Reply)         // record replaced, next prompt sent
    | Fail(next: Record)                        // record replaced, then a KeyError
    | Compute(next: Record, request: Request)   // record replaced, calculation invoked

  function NextRecord(t: Transition, r: Record): Record
  {
    if t.Reject? then r else t.next
  }

  /**
    Read the four stored values for the calculation; a missing one is the
    KeyError of `user_data[user_id][...]`, raised after the step was cleared.
   */
  function Finish(r: Record, country: Option<Country>, carType: Option<CarType>): (t: Transition)
    ensures t.Fail? || t.Compute?
    ensures t.next == r
    ensures t.Compute? <==> r.year.Some? && r.month.Some? && r.engineVolume.Some? && r.price.Some?
    ensures t.Compute? ==>
      && t.next.year.Some? && t.next.month.Some? && t.next.engineVolume.Some? && t.next.price.Some?
      && t.request == Request(country, r.year.value, r.month.value, r.engineVolume.value, r.price.value, carType)
  {
    if r.year.Some? && r.month.Some? && r.engineVolume.Some? && r.price.Some? then
      Compute(r, Request(country, r.year.value, r.month.value, r.engineVolume.value, r.price.value, carType))
    else
      Fail(r)
  }

  /**
    process_manual_input on a record, given the current country. An invalid
    text leaves the record as it is; a valid one stores its value under the
    step's key and moves to the successor step; leaving the price step (outside
    Kyrgyzstan) or the car-type step invokes the calculation.
   */
  function Advance(r: Record, text: string, country: Option<Country>): (t: Transition)
    ensures t.Reject? <==> !(r.step.At? && Accepts(r.step.step, text))
    ensures t.Reject? ==> t.reply == if r.step.At? then Complaint(r.step.step) else Silent
    ensures !t.Reject? ==> t.next.step == Successor(r.step.step, country)
    ensures t.Store? ==> t.next.step.At? && t.reply == Prompt(t.next.step.step)
    ensures !t.Reject? && r.step == At(YearStep) ==>
      t.next == r.(year := Some(DigitsValue(text)), step := At(MonthStep))
    ensures !t.Reject? && r.step == At(MonthStep) ==>
      t.next == r.(month := ParseInt(text), step := At(VolumeStep))
    ensures !t.Reject? && r.step == At(VolumeStep) ==>
      t.next == r.(engineVolume := Some(DigitsValue(text)), step := At(PriceStep))
    ensures !t.Reject? && r.step == At(PriceStep) ==>
      t.next == r.(price := Some(DigitsValue(text)), step := Successor(PriceStep, country))
    ensures !t.Reject? && r.step == At(CarTypeStep) ==> t.next == r.(step := Cleared)
    ensures t.Compute? ==>
      && t.next.year.Some? && t.next.month.Some? && t.next.engineVolume.Some? && t.next.price.Some?
      && t.request == Request(country, t.next.year.value, t.next.month.value, t.next.engineVolume.value,
                           t.next.price.value, t.request.carType)
    ensures t.Compute? ==> t.request.carType == (if r.step == At(CarTypeStep) then ParseCarType(text) else None)
  {
    match r.step
    case At(CarTypeStep) =>
      (match ParseCarType(text)
       case None => Reject(BadCarType)
       case Some(ct) => Finish(r.(step := Cleared), country, Some(ct)))
    case At(YearStep) =>
      (match ParseYear(text)
       case None => Reject(BadYear)
       case Some(y) => Store(r.(year := Some(y), step := At(MonthStep)), AskMonth))
    case At(MonthStep) =>
      (match ParseMonth(text)
       case None => Reject(BadMonth)
       case Some(m) => Store(r.(month := Some(m), step := At(VolumeStep)), AskVolume))
    case At(VolumeStep) =>
      (match ParsePositive(text)
       case None => Reject(BadVolume)
       case Some(v) => Store(r.(engineVolume := Some(v), step := At(PriceStep)), AskPrice))
    case At(PriceStep) =>
      (match ParsePositive(text)
       case None => Reject(BadPrice)
       case Some(p) =>
         if country == Some(Kyrgyzstan) then Store(r.(price := Some(p), step := At(CarTypeStep)), AskCarType)
         else Finish(r.(price := Some(p), step := Cleared), country, None))
    case Cleared => Reject(Silent)
    case Absent => Reject(Silent)
  }

  /** Every stored value is one the wizard accepts. */
  predicate InRange(r: Record)
  {
    && (r.year.Some? ==> 1900 <= r.year.value <= 2025)
    && (r.month.Some? ==> 1 <= r.month.value <= 12)
    && (r.engineVolume.Some? ==> r.engineVolume.value > 0)
    && (r.price.Some? ==> r.price.value > 0)
  }

  /** A record the wizard can be in: every step before the current one has its value, and the values are in range. */
  predicate Consistent(r: Record)
  {
    && InRange(r)
    && (r.step.At? && r.step.step != YearStep ==> r.year.Some?)
    && (r.step == At(VolumeStep) || r.step == At(PriceStep) || r.step == At(CarTypeStep) ==> r.month.Some?)
    && (r.step == At(PriceStep) || r.step == At(CarTypeStep) ==> r.engineVolume.Some?)
    && (r.step == At(CarTypeStep) ==> r.price.Some?)
  }

  /**
    On a consistent record the wizard never raises KeyError, keeps the record
    consistent, and every calculation it asks for carries validated values.
   */
  lemma AdvanceKeepsConsistent(r: Record, text: string, country: Option<Country>)
    requires Consistent(r)
    ensures !Advance(r, text, country).Fail?
    ensures Consistent(NextRecord(Advance(r, text, country), r))
    ensures Advance(r, text, country).Compute? ==>
      var q := Advance(r, text, country).request;
      1900 <= q.year <= 2025 && 1 <= q.month <= 12 && q.engineVolume > 0 && q.price > 0
  {
  }

  /** The wizard order: a step comes before its successor. */
  function Rank(s: StepKey): nat
  {
    match s
    case Absent => 0
    case At(YearStep) => 1
    case At(MonthStep) => 2
    case At(VolumeStep) => 3
    case At(PriceStep) => 4
    case At(CarTypeStep) => 5
    case Cleared => 6
  }

  /** Each message moves a record forward or leaves it alone: the wizard never goes back a step. */
  lemma AdvanceNeverGoesBack(r: Record, text: string, country: Option<Country>)
    ensures Rank(NextRecord(Advance(r, text, country), r).step) >= Rank(r.step)
    ensures !Advance(r, text, country).Reject? ==> Rank(NextRecord(Advance(r, text, country), r).step) > Rank(r.step)
  {
  }

  /** A year typed with leading zeros is read as the same year. */
  lemma {:induction false} YearWithLeadingZeros(r: Record, k: nat, year: nat, country: Option<Country>)
    requires r.step == At(YearStep) && 1900 <= year <= 2025
    ensures Advance(r, Repeat('0', k) + Decimal(year), country) == Store(r.(year := Some(year), step := At(MonthStep)), AskMonth)
  {
    DecimalValue(year);
    LeadingZerosValue(k, Decimal(year));
  }

  /** `int()` lets the month through with blanks around it and a plus sign, unlike the other steps. */
  lemma {:induction false} MonthSpelledLoosely(r: Record, month: int, plus: bool, before: nat, after: nat, country: Option<Country>)
    requires r.step == At(MonthStep) && 1 <= month <= 12
    ensures Advance(r, Repeat(' ', before) + (if plus then "+" else "") + Decimal(month) + Repeat(' ', after), country)
      == Store(r.(month := Some(month), step := At(VolumeStep)), AskVolume)
  {
    ParseIntSpelled(month, plus, before, after);
  }

  /** The four answers of a manual entry, in order, each from the record the previous one left. */
  function Answers(country: Option<Country>, year: string, month: string, volume: string, price: string): seq<Transition>
  {
    var t1 := Advance(StartRecord, year, country);
    var t2 := Advance(NextRecord(t1, StartRecord), month, country);
    var t3 := Advance(NextRecord(t2, NextRecord(t1, StartRecord)), volume, country);
    var t4 := Advance(NextRecord(t3, NextRecord(t2, NextRecord(t1, StartRecord))), price, country);
    [t1, t2, t3, t4]
  }

  /**
    Outside Kyrgyzstan, four valid answers typed as plain numbers lead to one
    calculation request carrying exactly those numbers and no body type.
   */
  lemma {:induction false} ManualEntryRequestsCalculation(country: Option<Country>, year: nat, month: nat, volume: nat, price: nat)
    requires country != Some(Kyrgyzstan)
    requires 1900 <= year <= 2025 && 1 <= month <= 12 && volume > 0 && price > 0
    ensures var ts := Answers(country, Decimal(year), Decimal(month), Decimal(volume), Decimal(price));
      && ts[0].Store? && ts[1].Store? && ts[2].Store?
      && ts[3].Compute? && ts[3].request == Request(country, year, month, volume, price, None)
  {
    var r3 := EnterThreeAnswers(country, year, month, volume);
    DecimalValue(price);
    assert Advance(r3, Decimal(price), country)
        == Compute(r3.(price := Some(price), step := Cleared), Request(country, year, month, volume, price, None));
  }

  /**
    For Kyrgyzstan the same answers stop at the car-type step, and "Седан"
    then requests the calculation for a sedan.
   */
  lemma {:induction false} KyrgyzEntryAsksForCarType(year: nat, month: nat, volume: nat, price: nat)
    requires 1900 <= year <= 2025 && 1 <= month <= 12 && volume > 0 && price > 0
    ensures var ts := Answers(Some(Kyrgyzstan), Decimal(year), Decimal(month), Decimal(volume), Decimal(price));
      && ts[3].Store? && ts[3].next.step == At(CarTypeStep) && ts[3].reply == AskCarType
      && var t5 := Advance(ts[3].next, "Седан", Some(Kyrgyzstan));
         t5.Compute? && t5.request == Request(Some(Kyrgyzstan), year, month, volume, price, Some(Sedan))
  {
    var c := Some(Kyrgyzstan);
    var r3 := EnterThreeAnswers(c, year, month, volume);
    DecimalValue(price);
    var r4 := r3.(price := Some(price), step := At(CarTypeStep));
    assert Advance(r3, Decimal(price), c) == Store(r4, AskCarType);
    assert ParseCarType("Седан") == Some(Sedan) by {
      assert Lower("Седан") == "седан";
    }
    assert Advance(r4, "Седан", c) == Compute(r4.(step := Cleared), Request(c, year, month, volume, price, Some(Sedan)));
  }

  /** The first three answers of a manual entry, typed as plain numbers, are stored in order. */
  lemma {:induction false} EnterThreeAnswers(country: Option<Country>, year: nat, month: nat, volume: nat) returns (r3: Record)
    requires 1900 <= year <= 2025 && 1 <= month <= 12 && volume > 0
    ensures r3 == Record(At(PriceStep), None, Some(year), Some(month), Some(volume), None)
    ensures var t1 := Advance(StartRecord, Decimal(year), country);
      && t1.Store?
      && var t2 := Advance(t1.next, Decimal(month), country);
      && t2.Store?
      && var t3 := Advance(t2.next, Decimal(volume), country);
      t3.Store? && t3.next == r3
  {
    DecimalValue(year);
    DecimalValue(month);
    DecimalValue(volume);
    var r1 := StartRecord.(year := Some(year), step := At(MonthStep));
    var r2 := r1.(month := Some(month), step := At(VolumeStep));
    r3 := r2.(engineVolume := Some(volume), step := At(PriceStep));
    assert Advance(StartRecord, Decimal(year), country) == Store(r1, AskMonth);
    assert Advance(r1, Decimal(month), country) == Store(r2, AskVolume);
    assert Advance(r2, Decimal(volume), country) == Store(r3, AskPrice);
  }

  /** "fem.encar.com" contains "encar.com", so the guard's first test adds nothing. */
  lemma FemHostContainsHost()
    ensures Contains("fem.encar.com", "encar.com")
  {
    assert "fem.encar.com"[4..13] == "encar.com";
    assert OccursAt("fem.encar.com", "encar.com", 4);
  }

  /**
    The bot's state: the per-chat records and the two globals shared by every
    chat, each handler one method.
   */
  class Bot {
    var userData: map<int, Record>
    var currentCountry: Option<Country>
    var currentCarType: Option<CarType>

    /** Every chat's record is one the wizard can be in. */
    ghost predicate Valid()
      reads this
    {
      forall chat :: chat in userData ==> Consistent(userData[chat])
    }

    /** Module load: no chats, Russia and sedan preselected. */
    constructor ()
      ensures userData == map[] && currentCountry == Some(Russia) && currentCarType == Some(Sedan)
      ensures Valid()
    {
      userData := map[];
      currentCountry := Some(Russia);
      currentCarType := Some(Sedan);
    }

    /** handle_russia, handle_kazakhstan, handle_kyrgyzstan: the chat's record becomes `{"country": c}`. */
    method SelectCountry(chat: int, c: Country) returns (reply: Reply)
      modifies this
      ensures userData == old(userData)[chat := CountryRecord(c)]
      ensures currentCountry == Some(c) && currentCarType == old(currentCarType)
      ensures old(Valid()) ==> Valid()
      ensures reply == CalculationOptions
    {
      currentCountry := Some(c);
      userData := userData[chat := CountryRecord(c)];
      reply := CalculationOptions;
    }

    /** handle_manual_input: the record becomes `{"step": "year"}`, dropping any stored country. */
    method HandleManualInput(chat: int) returns (reply: Reply)
      modifies this
      ensures userData == old(userData)[chat := StartRecord]
      ensures userData[chat].country == None
      ensures currentCountry == old(currentCountry) && currentCarType == old(currentCarType)
      ensures old(Valid()) ==> Valid()
      ensures reply == AskYear
    {
      userData := userData[chat := StartRecord];
      reply := AskYear;
    }

    /** main_menu: the record becomes `{}`. */
    method MainMenu(chat: int) returns (reply: Reply)
      modifies this
      ensures userData == old(userData)[chat := EmptyRecord]
      ensures currentCountry == old(currentCountry) && currentCarType == old(currentCarType)
      ensures old(Valid()) ==> Valid()
      ensures reply == Greeting
    {
      userData := userData[chat := EmptyRecord];
      reply := Greeting;
    }

    /**
      calculate_manual_cost: on success the chat's record becomes `{}` and both
      globals None; when the calculator raises nothing is reset.
     */
    method CalculateManualCost(chat: int, request: Request, calculator: Request -> Option<string>) returns (reply: Reply)
      modifies this
      ensures calculator(request).Some? ==>
        && userData == old(userData)[chat := EmptyRecord]
        && currentCountry == None && currentCarType == None
        && reply == Quote(calculator(request).value)
      ensures calculator(request).None? ==>
        && userData == old(userData) && currentCountry == old(currentCountry) && currentCarType == old(currentCarType)
        && reply == CalculationFailed
      ensures old(Valid()) ==> Valid()
    {
      match calculator(request)
      case Some(text) =>
        userData := userData[chat := EmptyRecord];
        currentCountry := None;
        currentCarType := None;
        reply := Quote(text);
      case None =>
        reply := CalculationFailed;
    }

    /**
      process_manual_input, for a chat whose record has a "step" key (the
      handler's filter). The car-type step records the chosen type in the
      global first; the rest is Advance with the current country.
     */
    method ProcessManualInput(chat: int, text: string, calculator: Request -> Option<string>) returns (reply: Reply)
      requires chat in userData && userData[chat].step != Absent
      modifies this
      ensures var t := Advance(old(userData)[chat], text, old(currentCountry));
        && (t.Reject? ==> userData == old(userData) && reply == t.reply)
        && (t.Store? ==> userData == old(userData)[chat := t.next] && reply == t.reply)
        && (t.Fail? ==> userData == old(userData)[chat := t.next] && reply == KeyErrorRaised)
        && (t.Compute? && calculator(t.request).Some? ==>
              userData == old(userData)[chat := EmptyRecord] && reply == Quote(calculator(t.request).value))
        && (t.Compute? && calculator(t.request).None? ==>
              userData == old(userData)[chat := t.next] && reply == CalculationFailed)
        && (t.Compute? && calculator(t.request).Some? ==> currentCountry == None && currentCarType == None)
        && (!(t.Compute? && calculator(t.request).Some?) ==> currentCountry == old(currentCountry))
        && (!(t.Compute? && calculator(t.request).Some?) ==>
              currentCarType ==
                if old(userData)[chat].step == At(CarTypeStep) && ParseCarType(text).Some?
                then ParseCarType(text) else old(currentCarType))
      ensures old(Valid()) ==> Valid()
    {
      var r := userData[chat];
      ghost var v := Valid();
      if r.step == At(CarTypeStep) && ParseCarType(text).Some? {
        currentCarType := ParseCarType(text);
      }
      var t := Advance(r, text, currentCountry);
      if v {
        AdvanceKeepsConsistent(r, text, currentCountry);
      }
      match t
      case Reject(rep) =>
        reply := rep;
      case Store(next, rep) =>
        userData := userData[chat := next];
        reply := rep;
      case Fail(next) =>
        userData := userData[chat := next];
        reply := KeyErrorRaised;
      case Compute(next, request) =>
        userData := userData[chat := next];
        reply := CalculateManualCost(chat, request, calculator);
    }

    /**
      The new state and reply of handle_car_type_selection for `carType`,
      against the state before it.
     */
    twostate predicate CarTypeHandled(chat: int, carType: CarType, calculator: Request -> Option<string>, reply: Reply)
      reads this
    {
      && (chat !in old(userData) ==>
            userData == old(userData) && currentCarType == Some(carType) && currentCountry == old(currentCountry)
            && reply == KeyErrorRaised)
      && (chat in old(userData) ==>
            var t := Finish(old(userData)[chat].(step := Cleared), old(currentCountry), Some(carType));
            && (t.Fail? ==>
                  userData == old(userData)[chat := t.next] && currentCarType == Some(carType)
                  && currentCountry == old(currentCountry) && reply == KeyErrorRaised)
            && (t.Compute? && calculator(t.request).Some? ==>
                  userData == old(userData)[chat := EmptyRecord] && currentCountry == None && currentCarType == None
                  && reply == Quote(calculator(t.request).value))
            && (t.Compute? && calculator(t.request).None? ==>
                  userData == old(userData)[chat := t.next] && currentCarType == Some(carType)
                  && currentCountry == old(currentCountry) && reply == CalculationFailed))
    }

    /**
      handle_car_type_selection, reached from a "sedan" or "crossover" button:
      the global car type is set first, then the step is cleared and the
      stored values are read; a chat without a record, or a record without one
      of the values, raises KeyError at that point.
     */
    method HandleCarTypeSelection(chat: int, carType: CarType, calculator: Request -> Option<string>) returns (reply: Reply)
      modifies this
      ensures CarTypeHandled(chat, carType, calculator, reply)
      ensures old(Valid()) ==> Valid()
    {
      currentCarType := Some(carType);
      if chat !in userData {
        return KeyErrorRaised;
      }
      var r := userData[chat].(step := Cleared);
      userData := userData[chat := r];
      var t := Finish(r, currentCountry, currentCarType);
      match t
      case Fail(_) =>
        reply := KeyErrorRaised;
      case Compute(_, request) =>
        reply := CalculateManualCost(chat, request, calculator);
    }

    /**
      handle_callback_query: "calculate_another" resets the chat and both
      globals and shows the countries; the body-type buttons go to
      HandleCarTypeSelection; "main_menu" to MainMenu; other data is ignored.
     */
    method HandleCallbackQuery(chat: int, data: string, calculator: Request -> Option<string>) returns (reply: Reply)
      modifies this
      ensures data == "calculate_another" ==>
        userData == old(userData)[chat := EmptyRecord] && currentCountry == None && currentCarType == None
        && reply == CountrySelection
      ensures data == "main_menu" ==>
        userData == old(userData)[chat := EmptyRecord] && currentCountry == old(currentCountry)
        && currentCarType == old(currentCarType) && reply == Greeting
      ensures data !in ["calculate_another", "sedan", "crossover", "main_menu"] ==>
        userData == old(userData) && currentCountry == old(currentCountry) && currentCarType == old(currentCarType)
        && reply == Silent
      ensures data == "sedan" ==> CarTypeHandled(chat, Sedan, calculator, reply)
      ensures data == "crossover" ==> CarTypeHandled(chat, Crossover, calculator, reply)
      ensures old(Valid()) ==> Valid()
    {
      if data == "calculate_another" {
        userData := userData[chat := EmptyRecord];
        currentCountry := None;
        currentCarType := None;
        reply := CountrySelection;
      } else if data == "sedan" {
        reply := HandleCarTypeSelection(chat, Sedan, calculator);
      } else if data == "crossover" {
        reply := HandleCarTypeSelection(chat, Crossover, calculator);
      } else if data == "main_menu" {
        reply := MainMenu(chat);
      } else {
        reply := Silent;
      }
    }

    /**
      The guard of process_encar_link: a country must have been chosen for the
      chat and the text must mention both "encar.com" and "fem.encar.com"; then
      calculate_cost runs and may fail. The record is not changed here.
     */
    method ProcessEncarLink(chat: int, text: string, calcCost: (Country, string) -> Option<string>) returns (reply: Reply)
      ensures reply == ChooseCountryFirst <==> chat !in userData || userData[chat].country.None?
      ensures reply == BadLink <==>
        chat in userData && userData[chat].country.Some? && !Contains(text, "fem.encar.com")
      ensures reply.LinkQuote? || reply.LinkFailed? <==>
        chat in userData && userData[chat].country.Some? && Contains(text, "fem.encar.com")
      ensures chat in userData && userData[chat].country.Some? && Contains(text, "fem.encar.com") ==>
        var quote := calcCost(userData[chat].country.value, text);
        reply == if quote.Some? then LinkQuote(quote.value) else LinkFailed
    {
      if chat !in userData || userData[chat].country.None? {
        return ChooseCountryFirst;
      }
      if !Contains(text, "encar.com") || !Contains(text, "fem.encar.com") {
        if Contains(text, "fem.encar.com") {
          FemHostContainsHost();
          ContainsTransitive(text, "fem.encar.com", "encar.com");
        }
        return BadLink;
      }
      match calcCost(userData[chat].country.value, text)
      case Some(quote) =>
        reply := LinkQuote(quote);
      case None =>
        reply := LinkFailed;
    }
  }
}
