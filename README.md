# ClaimIt estimate engine, in Dafny

ClaimIt is a Canadian tax-refund estimator. A user answers a short
questionnaire, in quick or detailed mode. The application totals their T4
employment income, T5/T3 investment income and any business and rental
profit. It then works out federal bracket tax plus a flat provincial tax and
subtracts eleven credits, floors the liability at zero once, and adds the
climate rebate, the sales-tax credit and the Ontario rent credit. The rounded
result is a refund (positive) or an amount owing (negative). A smaller demo
questionnaire has its own rougher running estimate and a step counter that
skips screens which do not apply.

This project models that logic and proves properties of it:

- `common.dfy`: option values; form fields as text plus the coerced number; `Math.round`.
- `claimit_data.dfy`: the province, climate and tax-year tables, the blank T4/T5 slips and the time-left classifier.
- `answers.dfy`: the answer record the engine reads.
- `tags.dfy`: the checkbox toggle on tag lists.
- `slips.dfy`: adding, removing and editing T4/T5 slips by id.
- `income.dfy`: total income and tax withheld, as loops checked against recursive sums.
- `estimate.dfy`: the estimate, as a sequence of subtractions and additions checked against a definition by parts.
- `results.dfy`: the "credits found" and "credits missing" lists.
- `steps.dfy`: total steps, progress and the detailed-mode screen offsets.
- `demo.dfy`: the demo estimate and the demo session with its auto-advancing step counter.

Conventions:

- Amounts are `real`, so there is no floating-point rounding.
- A form field is `Input(text, value)`. `text` is what was typed; `""` means
  blank, which is what JavaScript truthiness tests look at. `value` is the
  field after `parseFloat(x) || 0` (or `parseInt`), so text that does not
  parse has value 0.
- `Math.round(x)` is `Floor(x + 1/2)`.
- A `null` choice is `None`.

The spouse-income screen labels the 'none' bracket as earning the full
spousal amount (`components/ClaimIt.jsx:338`), but the estimate credits only
the 'low' bracket (`components/ClaimIt.jsx:122`). The model follows the
estimate as written; see `Estimate.SpouseWithoutIncomeGetsNoCredit`,
`Results.NoneBracketListedNotCredited` and `Estimate.DetailedAlbertaScenario`.

## Model

| member | source | states |
|---|---|---|
| `Common.Round` | components/ClaimIt.jsx:184 | The rounded value is within one half of the input, with halves going up, as `Math.round` does |
| `ClaimItData.ClimateKeysAreProvinces` | lib/claimit-data.js:4-29 | Every key of the climate table is a province code in the province table |
| `ClaimItData.ClimateEntriesProportional` | lib/claimit-data.js:20-29 | In every climate entry the spouse amount equals the single amount, and twice the child amount equals it |
| `ClaimItData.TaxYearsDescending` | lib/claimit-data.js:31 | The tax-year list starts with 2025 and strictly descends |
| `ClaimItData.CreateEmptyT4` | lib/claimit-data.js:65-74 | The new T4 slip carries exactly the given id, and every one of its seven fields is blank |
| `ClaimItData.CreateEmptyT5` | lib/claimit-data.js:76-83 | The new T5 slip carries exactly the given id, and every one of its five fields is blank |
| `ClaimItData.GetTimeEstimate` | lib/claimit-data.js:85-99 | "Almost done" iff at most one step is left in quick mode, or none is left otherwise. A seconds answer is 15 or 25 seconds per step left and under a minute. A minutes answer comes only when those seconds reach 60, is at least 1, and is the ceiling of the seconds over 60. So the three answers are pinned down by the steps left |
| `ClaimItData.TimeEstimateMonotone` | lib/claimit-data.js:85-99 | More steps left never gives a shorter answer, so the minute count does not decrease as steps left grow |
| `Tags.Without` | components/ClaimIt.jsx:195 | Filtering drops exactly the given tag and keeps every other tag. It never lengthens the list, changes nothing when the tag is absent, and keeps a list free of duplicates |
| `Tags.Toggle` | components/ClaimIt.jsx:194-200 | The toggled tag's membership flips and every other tag's stays. An absent tag is appended at the end |
| `Tags.ToggleTwiceRestoresMembers` | components/ClaimIt.jsx:194-200 | Toggling the same tag twice gives back the same set of selected tags |
| `Tags.WithoutAppended` | components/ClaimIt.jsx:195 | Filtering out a tag just appended to a list that lacked it gives that list back |
| `Tags.ToggleTwiceRestoresList` | components/ClaimIt.jsx:194-200 | When the tag was not selected, toggling it twice gives back the very same list, order included |
| `Tags.ToggleKeepsNoDuplicates` | components/ClaimIt.jsx:194-200 | Toggling keeps a duplicate-free selection duplicate-free |
| `Slips.MaxId` | components/ClaimIt.jsx:203 | On a non-empty list the result is an id of the list and no id exceeds it |
| `Slips.AddSlip` | components/ClaimIt.jsx:202-205 | Appends one slip, whose id is one more than some existing id and larger than all of them. The old slips stay unchanged in front, and distinct ids stay distinct |
| `Slips.WithoutId` | components/ClaimIt.jsx:208 | Keeps exactly the slips whose id differs from the given one, and changes nothing when no slip has that id |
| `Slips.WithoutIdConcat` | components/ClaimIt.jsx:208 | Filtering a concatenation filters each part and joins the results, so kept slips keep their relative order |
| `Slips.WithoutIdAt` | components/ClaimIt.jsx:208 | With distinct ids, filtering out the id of the slip at position k leaves exactly the slips before it followed by the slips after it |
| `Slips.WithoutIdUnique` | components/ClaimIt.jsx:208 | With distinct ids, filtering keeps them distinct and drops at most one slip |
| `Slips.RemoveSlip` | components/ClaimIt.jsx:207-209 | A one-slip list is left alone. A longer list keeps exactly the slips with another id. With distinct ids, removing the slip at position k leaves the slips before it followed by the slips after it, in order |
| `Slips.RemoveKeepsValid` | components/ClaimIt.jsx:207-209 | Removing never empties a list with distinct ids, and keeps the ids distinct |
| `Slips.RemoveAt` | components/ClaimIt.jsx:207-209 | With distinct ids and more than one slip, removing the slip at position k leaves the slips before it and after it in their order, one slip fewer, so the numbers shown by position shift down by one past k |
| `Slips.UpdateSlip` | components/ClaimIt.jsx:211-213 | The length and every id stay the same. Slips with another id are unchanged, and the matching slip gets the edit |
| `Slips.SetT4Field` | components/ClaimIt.jsx:212 | The named T4 field gets the new value and every other field keeps its old one |
| `Slips.SetT5Field` | components/ClaimIt.jsx:225 | The named T5 field gets the new value and every other field keeps its old one |
| `Answers.InitialIsBlank` | components/ClaimIt.jsx:15-59 | A fresh session has chosen nothing and typed nothing. The tax year is 2025 and each slip list holds one blank slip with id 1 |
| `Slips.AddT4` | components/ClaimIt.jsx:202-205 | Appends a blank T4 (as `createEmptyT4`) whose id is the largest id in use plus one. Earlier slips are kept and ids stay distinct |
| `Slips.AddT5` | components/ClaimIt.jsx:215-218 | Appends a blank T5 (as `createEmptyT5`) whose id is the largest id in use plus one. Earlier slips are kept and ids stay distinct |
| `Slips.UpdateT4` | components/ClaimIt.jsx:211-213 | Only the named field of the slip with that id changes. The length, the ids and every other slip are untouched |
| `Slips.UpdateT5` | components/ClaimIt.jsx:224-226 | Only the named field of the slip with that id changes. The length, the ids and every other slip are untouched |
| `Slips.HandlersKeepValid` | components/ClaimIt.jsx:202-226 | The initial one-slip T4 and T5 lists are valid (non-empty, distinct ids), and add, remove and update of either kind each keep a list valid |
| `Income.ProfitOnly` | components/ClaimIt.jsx:87-90 | A business or rental pair contributes its net when positive. A loss contributes nothing, never a negative amount |
| `Income.GetTotalIncome` | components/ClaimIt.jsx:78-92 | The loops compute total income: the quick figure in quick mode; otherwise box 14 over all T4s, plus interest, taxable dividends and half the capital gains over all T5s, plus positive nets |
| `Income.GetTaxPaid` | components/ClaimIt.jsx:94-99 | The loop computes tax withheld: the quick figure in quick mode, otherwise box 22 summed over the T4s |
| `Income.T4SumsNonNegative` | components/ClaimIt.jsx:81-97 | Non-negative box 14 and box 22 entries give non-negative sums |
| `Income.T5SumNonNegative` | components/ClaimIt.jsx:82-86 | Non-negative T5 entries give a non-negative investment sum |
| `Income.TotalsNonNegative` | components/ClaimIt.jsx:78-99 | When every entered amount is non-negative, total income and tax withheld are non-negative |
| `Income.LossAddsNothing` | components/ClaimIt.jsx:87-90 | A self-employment or rental loss leaves total income as if that pair were blank |
| `Income.AddedT4IncomeCounts` | components/ClaimIt.jsx:78-99 | Adding a T4 and typing an income into its box 14 raises total income by exactly that amount, and leaves tax withheld unchanged |
| `Estimate.BracketTaxContinuous` | components/ClaimIt.jsx:108-110 | The band formulas agree at 55867 and at 111733 |
| `Estimate.BracketTaxMarginal` | components/ClaimIt.jsx:108-110 | Raising income raises bracket tax by 15% to 26% of the rise, so it is continuous and non-decreasing |
| `Estimate.BracketTax` | components/ClaimIt.jsx:107-110 | 15% in the first band. For any non-negative income the tax lies between 15% and 26% of it |
| `Estimate.BandRates` | components/ClaimIt.jsx:108-110 | Within each band, every extra dollar is taxed at that band's own rate: 15% up to 55867, 20.5% from 55867 to 111733, and 26% above 111733 |
| `Estimate.SpousalCredit` | components/ClaimIt.jsx:122-125 | Non-zero only for a partnered user in the 'low' bracket. There it is 15% of what the spouse income falls short of 16129, for any spouse income below 16129 including a negative one, and 0 at a spouse income of 16129 or more. It is never negative, and never above 15% of 16129 for a non-negative spouse income |
| `Estimate.AgeCredit` | components/ClaimIt.jsx:128 | 15% of 8790 exactly for a senior with income below 98309, otherwise 0 |
| `Estimate.EmploymentCredit` | components/ClaimIt.jsx:119 | 15% of 1433 exactly when T4 income is selected or the mode is quick, otherwise 0 |
| `Estimate.RrspDeduction` | components/ClaimIt.jsx:131-132 | 25% of a positive contribution, and 0 for a blank or non-positive one |
| `Estimate.ChildcareCredit` | components/ClaimIt.jsx:135-139 | 15% of the claim capped at 8000 per child under 6 plus 5000 per child aged 6 to 17, and never more than 15% of that cap. A claim of zero or less, which the number field accepts, gives 0 |
| `Estimate.MedicalCredit` | components/ClaimIt.jsx:142-143 | 15% of what medical expenses exceed 3% of income, never negative |
| `Estimate.DonationCredit` | components/ClaimIt.jsx:146-149 | The first 200 at 15%, the rest at 29%, never less than 15% of the gift. A gift of zero or less gives 0 |
| `Estimate.TuitionCredit` | components/ClaimIt.jsx:152-153 | 15% of a positive tuition amount, and 0 for a blank or non-positive one |
| `Estimate.WfhCredit` | components/ClaimIt.jsx:156-157 | 15% of 2 per day up to 250 days, 75 (15% of 500) above 250 days, and 0 for no days. Always between 0 and 75 |
| `Estimate.FirstHomeCredit` | components/ClaimIt.jsx:160 | 1500 (15% of 10000) exactly when the first-home situation is ticked, otherwise 0 |
| `Estimate.Liability` | components/ClaimIt.jsx:107-162 | Bracket tax plus 12% provincial tax, less all eleven credits, floored once at zero |
| `Estimate.ClimateBenefit` | components/ClaimIt.jsx:166-171 | 0 for a province outside the table. Otherwise the single amount times (2 with a partner, else 1, plus half per child) |
| `Estimate.SalesTaxCredit` | components/ClaimIt.jsx:174-177 | 0 at income 50000 or above. Below it, 680 with a partner or 340 without, plus 179 per child |
| `Estimate.RentCredit` | components/ClaimIt.jsx:180-182 | For an Ontario user who ticked paid rent, 5% of rent plus 243, capped at 1248, and so at least 243 for a non-negative rent. Otherwise 0 |
| `Estimate.SubtractPersonalAmounts` | components/ClaimIt.jsx:115-128 | The first four subtractions take exactly the basic, employment, spousal and age credits off |
| `Estimate.SubtractClaims` | components/ClaimIt.jsx:130-160 | The next seven subtractions take exactly the RRSP, childcare, medical, donation, tuition, work-from-home and first-home credits off |
| `Estimate.AddBenefits` | components/ClaimIt.jsx:165-182 | The three additions add exactly the climate, sales-tax and rent benefits |
| `Estimate.EstimatedRefund` | components/ClaimIt.jsx:101-184 | The step-by-step computation returns 0 when income and tax withheld are both 0. Otherwise it returns the rounded value of tax withheld less liability plus benefits |
| `Estimate.NothingEnteredGivesZero` | components/ClaimIt.jsx:104 | With no income and nothing withheld the estimate is exactly 0, whatever benefits would apply |
| `Estimate.InitialEstimateIsZero` | components/ClaimIt.jsx:101-104 | A fresh session estimates 0 |
| `Estimate.RefundBeforeBenefitsAtMostTaxPaid` | components/ClaimIt.jsx:162-163 | Before benefits the refund never exceeds tax withheld |
| `Estimate.LiabilityFallsWithCredits` | components/ClaimIt.jsx:116-162 | More credits never raise the liability, and lower it by at most the extra credit |
| `Estimate.SpouseWithoutIncomeGetsNoCredit` | components/ClaimIt.jsx:122 | The 'none' bracket gets no spousal credit. Switching to 'low' gives one iff the user is partnered and the spouse income is below 16129 |
| `Estimate.ChildcareCapExample` | components/ClaimIt.jsx:135-139 | 20000 claimed for one child under 6 and one aged 6 to 17 is credited as 13000 |
| `Estimate.DonationExample` | components/ClaimIt.jsx:146-149 | 1000 donated is credited as 200 at 15% plus 800 at 29%, not as 1000 at 15% |
| `Estimate.QuickOntarioScenario` | components/ClaimIt.jsx:101-184 | Quick mode, 65000 income, 15000 withheld, single, Ontario: 278 owing |
| `Estimate.DetailedAlbertaScenario` | components/ClaimIt.jsx:101-184 | Detailed mode, one T4 of 80000 with 18000 withheld, married with a 'none' spouse, Alberta: no spousal credit and 749 owing |
| `Results.WfhShown` | components/ClaimIt.jsx:678 | The shown work-from-home amount is twice the days, and 500 once that exceeds 500 |
| `Results.Line` | components/ClaimIt.jsx:672-678 | Each rule contributes at most one line, of that rule's own kind |
| `Results.CreditsFound` | components/ClaimIt.jsx:669-678 | The pushes, after computing total income, build exactly the qualifying list |
| `Results.PushCredits` | components/ClaimIt.jsx:670-678 | The seven conditional pushes build exactly the qualifying list for the given income |
| `Results.CreditsMissing` | components/ClaimIt.jsx:680-683 | The three conditional pushes build exactly the possibly-missed list |
| `Results.InLinesUpTo` | components/ClaimIt.jsx:672-678 | A line is in the list iff the rule of its kind produced it |
| `Results.FoundExactly` | components/ClaimIt.jsx:672-677 | Each fixed-text line (basic, employment, spousal, age, first home) appears exactly when its rule holds |
| `Results.FoundValues` | components/ClaimIt.jsx:676-678 | The climate line appears iff the province is in the table, showing its single amount. The work-from-home line appears iff that situation is ticked and a day count entered, showing the capped amount |
| `Results.Extend` | components/ClaimIt.jsx:672-678 | Appending a line of the next rank to a rank-ordered list keeps it rank-ordered |
| `Results.LinesAscending` | components/ClaimIt.jsx:672-678 | The lines of the first n rules are in rule order, at most one per rule |
| `Results.FoundOrdered` | components/ClaimIt.jsx:672-678 | The qualifying lines come in the order the rules are written, each kind at most once, at most seven lines |
| `Results.MissingExactly` | components/ClaimIt.jsx:681-683 | Each possibly-missed line appears exactly when its rule holds, in rule order |
| `Results.WorkFromHomeOnOneList` | components/ClaimIt.jsx:678-681 | Unticked work from home is only on the missing list. Ticked with a day count, it is on the found list |
| `Results.ListedWhenCredited` | components/ClaimIt.jsx:669-678 | Every spousal or age credit the estimate subtracts is listed. The employment, first-home and climate lines appear exactly when the estimate uses them |
| `Results.SeniorListedAboveCeiling` | components/ClaimIt.jsx:675 | A senior at or above the 98309 ceiling is listed for the age amount although the estimate credits nothing |
| `Results.NoneBracketListedNotCredited` | components/ClaimIt.jsx:674 | A partner in the 'none' bracket is listed for the spousal amount although the estimate credits nothing |
| `Steps.TotalSteps` | components/ClaimIt.jsx:65-72 | 8 in quick mode. Otherwise 10 plus one for each of T4, T5/T3 and self-employment selected, so between 10 and 13 |
| `Steps.Progress` | components/ClaimIt.jsx:74 | Between 0 and 100. It is 0 on the welcome step, the rounded percentage of steps done up to the total, and 100 from the total on |
| `Steps.RoundMonotone` | components/ClaimIt.jsx:74 | Rounding preserves order |
| `Steps.ProgressMonotone` | components/ClaimIt.jsx:74 | Progress never goes down as the step grows |
| `Steps.DetailedOffsets` | components/ClaimIt.jsx:551-559 | The investment step is 6, or 7 after a T4 step. The offsets are ordered, and the details step is two below the total step count |
| `Steps.DetailedScreen` | components/ClaimIt.jsx:508-665 | Step 5 is the only one showing income sources. The T4 screen is shown only at step 6 and with a T4 source. The investment, self-employment and life-details screens are shown only at their offsets and only when selected or ticked |
| `Steps.DetailedScreensInOrder` | components/ClaimIt.jsx:510-665 | Each selected income screen is at its offset, then deductions, life situations and details. No step before the details step shows the results, and every step after it does |
| `Steps.ResultsStepAgainstTotal` | components/ClaimIt.jsx:644-669 | In detailed mode with a life situation ticked, the results are at total minus 1 and the details at total minus 2, where progress is under 100. In quick mode progress reaches 100 at the total |
| `Demo.OverWithheld` | components/ClaimItDemo.jsx:58-59 | Tax withheld beyond a flat 25% of income, never negative |
| `Demo.SpouseBoost` | components/ClaimItDemo.jsx:62-64 | 1500 exactly for 'married' (not common-law) with spouse income reading below 15000, otherwise 0 |
| `Demo.DemoClimate` | components/ClaimItDemo.jsx:67-72 | 0 outside the four-province table. Otherwise the single amount, plus the spouse amount only for 'married', plus the child amount per child |
| `Demo.DemoRent` | components/ClaimItDemo.jsx:75-77 | With the 'rent' tag in Ontario, 5% of rent capped at 840. Otherwise 0. Never above 840, and non-negative for a non-negative rent |
| `Demo.DemoRrsp` | components/ClaimItDemo.jsx:80-83 | 30% of a positive RRSP amount, and 0 for a blank or non-positive one |
| `Demo.RunningEstimate` | components/ClaimItDemo.jsx:51-87 | The accumulation returns 0 unless income and tax are both positive. Otherwise it returns the rounded sum of the over-withheld base and the boosts |
| `Demo.ZeroUntilIncomeAndTax` | components/ClaimItDemo.jsx:56 | No estimate until both income and tax withheld are positive |
| `Demo.DemoEstimateNonNegative` | components/ClaimItDemo.jsx:51-87 | With a non-negative rent amount the demo never shows an amount owing |
| `Demo.MarriedAlwaysGetsBoost` | components/ClaimItDemo.jsx:551-562 | The spouse screen stores 'high' or 'low', both reading as 0, so every married user gets the 1500 boost and no common-law user does |
| `Demo.DemoClimateIsPartOfTable` | components/ClaimItDemo.jsx:22-27 | The demo's climate entries equal the main table's, and the demo lacks exactly NB, NS, PE and NL |
| `Demo.Settle` | components/ClaimItDemo.jsx:533-601 | Rendering rests on a step that does not advance by itself, at most two steps on. Every step passed over advances by itself, and a resting step is kept |
| `Demo.PrevStep` | components/ClaimItDemo.jsx:94 | One step back, never below 0 |
| `Demo.ScreenAt` | components/ClaimItDemo.jsx:112-605 | Steps 5, 6 and 7 are the only ones with the income-source, T4 and spouse screens. Every step from 8 on, and only those, shows the results |
| `Demo.DemoSession.NextStep` | components/ClaimItDemo.jsx:93 | The step goes up by one and the answers stay |
| `Demo.DemoSession.Back` | components/ClaimItDemo.jsx:94 | The step becomes `PrevStep` of the old step, and the answers stay |
| `Demo.DemoSession.ToggleLifeCheck` | components/ClaimItDemo.jsx:96-102 | Only the life-situation list changes, by the toggle |
| `Demo.DemoSession.ToggleIncomeSource` | components/ClaimItDemo.jsx:104-110 | Only the income-source list changes, by the toggle |
| `Demo.DemoSession.Render` | components/ClaimItDemo.jsx:533-601 | Repeated rendering leaves the step where `Settle` says. The T4 screen is shown only with a T4 source and the spouse screen only with a partner |
| `Demo.BackBouncesFromSpouseScreen` | components/ClaimItDemo.jsx:533-583 | For a partnered user without a T4 source, Back on the spouse screen comes to rest on the spouse screen again |
| `Demo.CorrectedBack` | components/ClaimItDemo.jsx:94 | Back as intended: strictly earlier, on a screen that is shown, with every step in between one that advances by itself |
| `Demo.CorrectedBackMovesBack` | components/ClaimItDemo.jsx:533-601 | Corrected, Back comes to rest strictly before the current step, and within the questionnaire's steps on another screen |

## Left out

- Rendering, emoji, class strings and display text, and the whole of `components/claimit-ui.jsx` and `app/layout.js`. The results lines model the fixed-text values by their kind alone.
- React state hooks and memoisation. Each setter is modelled as producing a new value; the demo session is a class whose methods update its fields.
- Text parsing inside `parseFloat`/`parseInt`, and IEEE-754 behaviour. Fields carry their already-coerced value, and unparsable text has value 0. `NaN` is not modelled, so the work-from-home line for a day count typed as non-numeric text (which the application would show as `$NaN`) is modelled as showing the capped coerced value.
- Collected but unused answers: whether there are children (beyond the two counts), newcomer status and arrival date, elderly or disabled dependants, student-loan interest, and the CPP, EI, RPP and union-dues boxes. The boxes are stored in the slips, but no computation reads them. The demo's medical and donation amounts are left out for the same reason.
- The employer and institution names on the slips. They share the slip field type, so they also carry a coerced number, which nothing reads; only their text is meaningful.
- The income-source and life-situation catalogues (`INCOME_SOURCES`, `LIFE_SITUATIONS` in `lib/claimit-data.js`). They are display lists; tags are plain strings.
- `Slips.AddSlip`: requires a non-empty list. `Math.max` over no ids would give negative infinity, but the handlers keep at least one slip (`Slips.HandlersKeepValid`).
- `Steps.Progress`: requires a positive total. `totalSteps` is always at least 8.
- The full questionnaire's `nextStep`/`prevStep` (`components/ClaimIt.jsx:191-192`). They are the same rule as the demo's `Demo.DemoSession.NextStep` and `Demo.DemoSession.Back`.
- The full questionnaire's screens for steps 0 to 4 and the quick-mode screens. Only the detailed-mode dispatch from step 5 on is modelled (`Steps.DetailedScreen`).
- The demo's own `totalSteps`, `progress` and minutes-left figures (`components/ClaimItDemo.jsx:89-91`), and its results-screen list.
- The demo never renders controls for the life situations, rent or RRSP amounts. They are modelled as inputs anyway, so the demo's rent and RRSP boosts can be reasoned about.
- `ClaimItData.Provinces`: its thirteen entries are a constant. The lemmas state only that the climate keys are among them.

## Findings

| source | as written | input that shows it | evidently intended | confidence | as-written member | corrected member |
|---|---|---|---|---|---|---|
| components/ClaimItDemo.jsx:533-583 | Back on the spouse screen (step 7) goes to step 6. Without a T4 source, rendering step 6 calls `nextStep` straight away, so the user lands on step 7 again | married or common-law, no 't4' source, on the spouse screen, press Back | Back skips the auto-advancing step 6 and shows the income-source screen (step 5) | high; not executed | `Demo.BackBouncesFromSpouseScreen` | `Demo.CorrectedBackMovesBack` |
