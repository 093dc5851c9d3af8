# Kims Auto Trade bot: fee rules, report parsing and the manual-entry wizard

This project models the core of a Telegram bot that quotes the cost of
importing a car from South Korea into Russia, Kazakhstan or Kyrgyzstan, and
proves properties of that model in Dafny.

- `fees.dfy` holds the Russian fee rules of `utils.py`: the excise by
  horsepower and by engine volume, the recycling fee, the customs clearance
  fee and the horsepower estimate. The chains of the two excise rules and of
  the clearance fee are proved equal to band tables (`tiers.dfy`), and the
  monotonicity of the horsepower excise and of the clearance fee follows from
  those tables. The recycling fee is stated by its exact amounts.
- `kg_duty.dfy` holds the Kyrgyz duty lookup. It walks back from the
  manufacture year to the nearest table year, then scans that year's
  engine-volume ceilings in ascending order. It is an imperative method with
  loop invariants, specified by "latest year not after the car's year" and
  "smallest ceiling at or above the volume".
- `vehicle_age.dfy` holds the age category sent to the remote customs
  calculator, the age used for the recycling fee, and the form fields of that
  request. The current date is a parameter.
- `damage_amount.dfy` holds the damage-amount extraction from an accident
  report line. The model is proved against the semantics of the regular
  expression `[\d,]+(?=\s*원)`: leftmost match first, greedy run.
- `wizard.dfy` holds the per-chat wizard of `main.py` as a class. The class
  has the `user_data` map and the two globals, which are shared by every chat.
  A pure transition function `Advance` decides each step. It is proved to
  validate exactly the accepted texts, to follow the order
  year → month → engine volume → price → (car type | none), and to keep every
  record consistent. On a consistent record it never reaches a missing key.
- `text.dfy` holds the string operations the code relies on: `isdigit`,
  `int()`, `lstrip("0")`, `strip`, `lower` and substring tests.
- `wrappers.dfy` holds `Option` and `Result`.

The link guard of the encar handler needs `"fem.encar.com"` in the text, so a
plain `"encar.com"` link is refused (`Wizard.Bot.ProcessEncarLink`).

## Model

| member | source | states |
|---|---|---|
| Fees.ExciseRussia | utils.py:86-103 | The excise is zero exactly when the horsepower is at most 90. Above that it is at least 61 per horsepower. |
| Fees.ExciseMatchesBands | utils.py:90-103 | The chain equals horsepower times the rate of the first band whose inclusive ceiling (90, 150, 200, 300, 400, 500) covers it, and 1740 above 500. |
| Fees.ExciseMonotone | utils.py:90-103 | For non-negative horsepower, more horsepower never pays less excise. |
| Fees.ExciseByVolume | utils.py:107-126 | The volume excise is zero exactly when the volume is at most 1000 cm3. Above that it is at least 6.1 per cm3. |
| Fees.ExciseByVolumeMatchesBands | utils.py:111-126 | The litre chain equals the volume-band rate times the volume, divided by ten. |
| Fees.VolumeExciseUsesPowerRates | utils.py:111-126 | Above one litre, the volume excise uses the horsepower multiplier of the volume divided by ten, rounded up. |
| Fees.RecyclingFee | utils.py:130-166 | The fee times 100 equals the base rate 20000 times the coefficient in hundredths, so rounding to two decimals is exact. Under three years the fee is 3400, 1794600 or 2285200 roubles by volume band; otherwise it is 5200, 2747200 or 3004000. |
| Fees.RecyclingFeeOrdered | utils.py:141-162 | Any other age label pays strictly more than "до 3 лет". Within one label, a bigger engine never pays less. |
| Fees.CustomsFee | utils.py:170-189 | The clearance fee is one of the eight tariff amounts. |
| Fees.CustomsFeeMatchesBands | utils.py:174-189 | The chain equals the amount of the first price band whose inclusive ceiling covers the price, and 30000 above 7000000. |
| Fees.CustomsFeeMonotone | utils.py:174-189 | A dearer car never pays a smaller clearance fee. |
| Fees.HorsePower | utils.py:192-198 | Fifteen times the estimate is within 7 of the volume. |
| Fees.HorsePowerNearest | utils.py:197 | Every other integer is strictly farther from volume/15. So the rounding never meets a tie and the result is the nearest integer. |
| KgDuty.MinKey | utils.py:72 | Returns a key of the set that no other key is below. |
| KgDuty.MaxKey | utils.py:83 | Returns a key of the set that no other key is above. |
| KgDuty.CustomsFeeKg | utils.py:58-83 | Too old exactly when every table year is after the car's year. No tiers exactly when the latest table year not after it has no ceilings. Otherwise the duty is that year's entry for the smallest ceiling at or above the volume, or for the largest ceiling when none is. |
| KgDuty.DutyDetermined | utils.py:69-83 | The year and the ceiling that the lookup's contract describes are unique. |
| VehicleAge.Bucket | utils.py:226-233 | The category rank is 0 under 36 months and 3 from 84 months. In between it is (months − 12) / 24. |
| VehicleAge.BucketMonotone | utils.py:226-233 | An older car never lands in a younger category. |
| VehicleAge.CalculateAge | utils.py:208-233 | A category is returned exactly when the month parses to 1..12 and the year is in 1..9999. The category is that of the months elapsed. A month text "0" is a parse error. A month number outside 1..12 is a date error. |
| VehicleAge.LeadingZerosIgnored | utils.py:217 | A month written with leading zeros gives the same category as the number. |
| VehicleAge.AllZerosRejected | utils.py:217 | A month text made only of zeros is rejected. |
| VehicleAge.AgeForUtilizationFee | utils.py:202-205 | The manufacture year plus the age is the current year. The age is non-negative exactly when the car is not from a future year. |
| VehicleAge.CustomsRequest | utils.py:31-40 | The payload exists exactly when the age category does. Its age is one of the four labels, the one for that category. Owner, power and power unit are 1, the currency is KRW, and the engine type, volume and price are passed through. |
| VehicleAge.LabelInjective | utils.py:226-233 | Distinct categories are posted as distinct labels. |
| DamageAmount.WonFollows | get_insurance_total.py:30 | Computes the lookahead `(?=\s*원)` exactly. |
| DamageAmount.FindAmount | get_insurance_total.py:30-31 | Returns the first regex match from an index, meaning the leftmost start and then the longest run. It returns nothing exactly when no match starts at or after the index. |
| DamageAmount.ExtractLargeNumber | get_insurance_total.py:27-31 | Returns "0" when the text contains "없음". Otherwise it returns the text of the first match, or "0" when nothing matches. The result is never empty and holds only digits and commas. |
| DamageAmount.FirstMatchIsMaximal | get_insurance_total.py:30 | The match is a whole run: no digit or comma sits just before or just after it. |
| DamageAmount.UnmarkedRunSkipped | get_insurance_total.py:30 | A whole run not followed by blanks and the won sign is never the result. |
| Wizard.Finish | main.py:253-267 | The calculation is requested exactly when year, month, volume and price are all stored, with those values. A missing one is the KeyError. |
| Wizard.Advance | main.py:235-359 | A text is rejected exactly when the current step does not accept it, and the record is then kept. On acceptance the value the text spells is stored under the step's key. The step then moves to its successor: the car-type step only for Kyrgyzstan, otherwise none. Every other key is kept; the car-type step only clears the step. A requested calculation carries the stored year, month, volume and price and the current country. Only leaving the car-type step carries a body type into the request. |
| Wizard.AdvanceKeepsConsistent | main.py:245-359 | On a consistent record no KeyError occurs and the next record is consistent. Every requested calculation has a year in 1900..2025, a month in 1..12, and a positive volume and price. |
| Wizard.AdvanceNeverGoesBack | main.py:235-359 | The step never moves backwards. Every accepted text moves it forwards. |
| Wizard.YearWithLeadingZeros | main.py:278-285 | A year typed with leading zeros is accepted as that year. |
| Wizard.MonthSpelledLoosely | main.py:292-301 | A month with surrounding blanks or a plus sign is accepted, because `int()` allows both. |
| Wizard.EnterThreeAnswers | main.py:278-325 | Valid year, month and volume, typed as plain numbers, are stored in order and leave the record at the price step. |
| Wizard.ManualEntryRequestsCalculation | main.py:278-354 | Outside Kyrgyzstan, four valid answers lead to a single request carrying exactly those numbers and no body type. |
| Wizard.KyrgyzEntryAsksForCarType | main.py:245-267 | For Kyrgyzstan, the same answers stop at the car-type step. "Седан" then requests a sedan calculation. |
| Wizard.FemHostContainsHost | main.py:190 | "fem.encar.com" contains "encar.com". |
| Wizard.Bot.constructor | main.py:17-19 | No chats at start. The country is Russia and the body type is sedan. |
| Wizard.Bot.SelectCountry | main.py:447-489 | The chat's record becomes exactly `{"country": c}` and the global country becomes c. |
| Wizard.Bot.HandleManualInput | main.py:226-232 | The chat's record becomes exactly `{"step": "year"}`, and any stored country is dropped. |
| Wizard.Bot.MainMenu | main.py:147-151 | The chat's record becomes `{}`. |
| Wizard.Bot.CalculateManualCost | main.py:390-431 | On success the chat's record becomes `{}` and both globals become None. On failure nothing changes. |
| Wizard.Bot.ProcessManualInput | main.py:235-359 | The chat's new record and the reply follow `Advance`. A successful calculation resets the record to `{}` and both globals to None. Otherwise the country is kept, and the body type changes only when the car-type step accepts a text, to the type that text names. The invariant is preserved. |
| Wizard.Bot.HandleCarTypeSelection | main.py:363-387 | The global body type is set first and the step is cleared. A missing chat or value raises KeyError after that. Otherwise the calculation runs with the stored values. |
| Wizard.Bot.HandleCallbackQuery | main.py:26-43 | "calculate_another" resets the chat and both globals. "main_menu" resets the chat. "sedan" and "crossover" have exactly the effect of handle_car_type_selection for that type. Other data changes nothing. |
| Wizard.Bot.ProcessEncarLink | main.py:179-214 | Without a country key the reply asks for a country. With one, the link is processed exactly when the text contains "fem.encar.com"; otherwise it is refused. A processed link gives the calculator's quote for the stored country, or the failure reply when it fails. |
| Text.ParseInt | main.py:294 | For a digit string, `int()` gives the number it spells. |
| Text.ParseIntSpelled | main.py:294 | `int()` reads back a printed number with an optional sign and surrounding blanks. |
| Text.Contains | main.py:190 | The substring test holds exactly when the needle occurs at some index. |
| Text.ContainsTransitive | main.py:190 | A text containing a word contains every substring of that word. |
| Text.LStripZerosPadded | utils.py:217 | `lstrip("0")` removes exactly the leading zeros. |

## Left out

- The POST to the customs calculator and its JSON response are left out (utils.py:42-55), because they are network I/O. Only the payload is modelled.
- calculator.py is not part of this model, so `calculate_cost`, `calculate_cost_manual`, `show_country_selection` and the rate fetchers are opaque. The two calculators are function parameters that return the reply text or fail.
- The Kyrgyz duty table module is not part of this model, so `KgDuty.CustomsFeeKg` takes the table as a parameter.
- Sending messages, keyboards, deleting the "processing" message, bot commands, polling and the contact handlers are left out. Replies are an abstract `Reply` value.
- The order in which the bot library tries handler filters is left out: each handler is a method that is called directly. The filters that guard a handler are its requires (`Wizard.Bot.ProcessManualInput`). The `startswith("http")` filter of the link handler is not modelled.
- Concurrency is left out. Handlers run one at a time on the shared state.
- get_car_info.py, the scraping in get_insurance_total.py, config.py and the integration test file are left out, because they are browser automation, configuration and network tests.
- `clean_number`, `format_number` and `clear_memory` are left out, because they are float parsing, locale formatting and garbage collection.
- Python's `isdigit`, `int()`, `\d`, `\s`, `strip` and `lower` accept Unicode digits, whitespace and letters. The model uses ASCII digits, ASCII whitespace (blank, tab to carriage return, U+001C to U+001F), and ASCII and Cyrillic letters. Non-ASCII whitespace such as U+0085 and U+00A0 is not blank in the model. `int()`'s underscores are also left out.
- Fees.ExciseByVolume: uses exact rational arithmetic, so the binary floating-point rounding of the source's result is not modelled.
- Fees.CustomsFee: takes an integer price, while the source also accepts a float.
- VehicleAge.CustomsRequest: takes the engine volume and price as integers. The source's `int(engine_volume)` and `int(car_price)` also truncate a float or parse text; that conversion is not modelled.
- VehicleAge.CalculateAge: the current date is a parameter instead of the system clock. `int(year)` on text is not modelled, because the year is an integer.
- Wizard.Bot.ProcessEncarLink: the calculator's own changes to the chat state are not modelled, because calculator.py is not part of this model.
