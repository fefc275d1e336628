# Card recommendation engine — a Dafny model

The system recommends credit cards. A user gives monthly spends in four categories: travel, shopping, fuel and food. Every active card in the catalogue is scored against those spends. A card's score for a category comes from its own stored savings percentage, or from a default multiplier per category (0.4, 0.5, 0.6 and 0.7 times a configurable constant, 2, 3, 4 and 5 by default).

Each card gets:
- per-category savings, rounded for display;
- a total, rounded from the unrounded sum;
- a net saving after the annual fee;
- a "best for" label.

The cards are ranked by net saving. An empty catalogue yields one built-in fallback card.

## What is modelled

There are two engines. The recommendation service (`CardService`) is the current one. Its router (backend/src/routes/recommendationRoutes.js) runs the request validator before the controller; the path that router is mounted at is not modelled. The older route in backend/routes/calculate.js (`LegacyCalculate`), which backend/server.js mounts at `POST /calculate-list` with no validator in front of it, computes the same result by slightly different rules. Both are modelled over the same datatypes (`Cards`).

Shared pieces:
- Grouping of the flat catalogue rows into cards (`Grouping`).
- The best-for reduce and the assembling of a scored card (`Cards`).
- The in-place sort (`Ranking`).

Each engine is written the way the source works:
- a grouping loop over a map and its insertion order;
- one method per category block, accumulating a running total and pushing entries;
- a loop filling an array that is then sorted in place by net savings; the built-in stable sort is modelled by an insertion sort.

The per-card methods are proved equal to specification functions. Those functions have lemmas of their own: one entry per scored spend, in processing order; each entry is the rounded formula; the total is not the sum of the displayed figures but is within half a unit per category of it; best-for names the first strict maximum. `EngineAgreement` states conditions under which the two engines agree, and inputs on which they part.

Around the engines:
- **Spends normaliser** (`RecommendationController`).
- **Request validators** (`CalculateValidator`, `AnalyticsValidator`). These work over parsed JSON values (`JsonValues`), including the defaults they fill in and the unknown keys they strip.
- **In-memory cache** (`Cache.InMemoryCache`). A class whose `store` map the methods update, with the clock passed in.
- **URL builder** of the front end (`ApiClient`).

Numbers are exact `real`s. JavaScript's `Math.round` is `Round(x) = (x + 0.5).Floor`, which rounds halves toward +infinity. JavaScript truthiness is explicit: a number is falsy when 0; a SQL NULL name or key is the empty string, which is falsy; a NULL percentage is `None`.

Inputs the source obtains by I/O are parameters:
- the catalogue rows (`Option<seq<Row>>`, with None for a null result);
- the card details of the lookup;
- the parsed environment constants;
- the request bodies;
- the clock.

## Model

| member | source | states |
|---|---|---|
| Common.Round | backend/src/services/CardService.js:102 | Math.round: the result lies within half a unit of its argument, the upper half included |
| Common.RoundShift | backend/src/services/CardService.js:125 | rounding commutes with subtracting a whole number |
| Common.RoundUnique | backend/src/services/CardService.js:102 | at most one integer lies in (x - 0.5, x + 0.5], so that interval determines Math.round |
| Common.Truthy | backend/src/services/CardService.js:91 | JavaScript truthiness of an amount: falsy exactly when it is 0, the `!spendValue` test |
| Common.TruthyText | backend/src/services/CardService.js:78 | a database string is falsy exactly when it is empty (SQL NULL is modelled as the empty string), the test in `row.category_name \|\| row.category_key` |
| Cards.Key | backend/src/services/CardService.js:107-110 | the catalogue key each call looks up: "travel", "shopping", "fuel", "food" |
| Cards.Label | backend/src/services/CardService.js:107-110 | the label each call displays: "Travel", "Shopping", "Fuel", "Food" |
| Cards.SpendOf | backend/src/services/CardService.js:107-110 | the spend handed to each call: `spends.travel`, `spends.shopping`, `spends.fuel`, `spends.food` |
| Cards.Find | backend/src/services/CardService.js:92 | `find` by key: a found entry is in the list and has the key; nothing is found exactly when no entry has the key, and the first match is the one found |
| Cards.FindIndex | backend/src/services/CardService.js:92 | the position of the first entry with the key, or the length when none has it |
| Cards.FindIgnoresNames | backend/routes/calculate.js:111 | lists agreeing on keys and rates find entries with the same rate, whatever their names |
| Cards.ReduceMax | backend/src/services/CardService.js:112-113 | the `cat.savings > max.savings` reduce lands on an entry with the greatest savings that no earlier entry equals |
| Cards.BestIndex | backend/src/services/CardService.js:112-114 | the reduce started from the first entry lands on the first strict maximum |
| Cards.BestFor | backend/src/services/CardService.js:112-122 | best_for: the reduce's label followed by " Spends", " & More" for two entries or more, "General Spends" with none; its meaning is stated by BestForNamesFirstMax and BestForNoEntries |
| Cards.BestForNamesFirstMax | backend/src/services/CardService.js:112-122 | best_for is "<first strict maximum's label> Spends", with " & More" exactly when there are two or more entries, so a tie goes to the category processed first |
| Cards.BestForNoEntries | backend/src/services/CardService.js:114 | no entries: "General Spends" |
| Cards.Entries | backend/src/services/CardService.js:100-104 | each displayed entry is its contribution with the savings rounded, in the same order |
| Cards.RawSumAppend | backend/src/services/CardService.js:99 | the running total over consecutive category calls is the sum of their totals |
| Cards.DisplayedSumNearRawSum | backend/src/services/CardService.js:102 | rounding each of n categories moves their sum by at most n/2 from the unrounded sum, and by strictly less than n/2 downwards |
| Cards.TotalNearDisplayedSum | backend/src/services/CardService.js:123 | total_savings differs from the sum of the displayed savings by at most n/2 for n scored categories |
| Cards.TotalIsNotSumOfDisplayed | backend/src/services/CardService.js:123 | two categories of 0.5 display 1 each but total 1: the total is rounded once from the unrounded sum |
| Cards.NetIsTotalMinusFee | backend/src/services/CardService.js:123-125 | with a whole-number annual fee, net_savings = total_savings - fee |
| Cards.Finish | backend/src/services/CardService.js:116-127 | the returned card: the catalogue columns, best_for of the entries, total and net each rounded once from the unrounded sum; its lemmas are TotalNearDisplayedSum, TotalIsNotSumOfDisplayed and NetIsTotalMinusFee |
| Cards.EnvConstant | backend/src/config/constants.js:1-4 | the service's reading of a constant: the fallback or the parsed number, and a parsed 0 is kept |
| Cards.Multiplier | backend/src/services/CardService.js:107-110 | the default multiplier of each category, 0.4, 0.5, 0.6 and 0.7 times its constant; the same factors make the route's formula (backend/routes/calculate.js:20-23) and the fallback's (CardService.js:30-33) |
| Cards.FormulaEntry | backend/src/services/CardService.js:35-38 | one fallback entry: the category's label and its rounded default formula, with no `spent` figure |
| Cards.FormulaEntries | backend/src/services/CardService.js:35-38 | the fallback's entries for a list of categories: label, rounded default formula, no `spent` |
| Grouping.RefOf | backend/src/services/CardService.js:74-80 | the entry a keyed row pushes: its key and percentage, and its name; the service (`keyAsName`) replaces an empty name by the key, the route (backend/routes/calculate.js:95-100) keeps the name as read |
| Grouping.Ids | backend/src/services/CardService.js:59-72 | the distinct card ids, each once, exactly those of the rows |
| Grouping.FirstIndex | backend/src/services/CardService.js:60-71 | the first row carrying an id, whose columns the card takes |
| Grouping.EntriesFor | backend/src/services/CardService.js:73-80 | a card's category entries: one per row with its id and a truthy key, in row order |
| Grouping.CardFor | backend/src/services/CardService.js:60-81 | the card of an id: the first such row's columns and those entries |
| Grouping.Group | backend/src/services/CardService.js:57-86 | the grouping specification: one card per distinct id, in order of first appearance; GroupOnePerId and GroupedCardContents state its properties |
| Grouping.GroupOnePerId | backend/src/services/CardService.js:57-82 | grouping yields one card per distinct id, no two with the same id |
| Grouping.GroupedCardContents | backend/src/services/CardService.js:57-82 | a card's columns come from the first row with its id; its entries are the rows with its id and a truthy key, in row order |
| Grouping.CardForSnoc | backend/src/services/CardService.js:60-81 | one more row extends its own card's entries (if it has a key) or creates its card; other cards are untouched |
| Grouping.GroupStep | backend/src/services/CardService.js:59-82 | one forEach step keeps the map equal to the grouping of the rows read so far, and the id order equal to first appearance |
| Grouping.AddRow | backend/src/services/CardService.js:60-81 | the forEach callback: a new id gets a fresh card appended to the order; a row with a key appends its entry |
| Grouping.GroupRows | backend/src/services/CardService.js:57-86 | the grouping loop returns the Map's values in insertion order, equal to the grouping specification |
| Grouping.EntriesForRenames | backend/src/services/CardService.js:74-81 | the service's entries are the route's entries with an empty name replaced by the key; every entry's key is non-empty |
| Grouping.GroupRenames | backend/routes/calculate.js:80-102 | the route's cardMap holds the same cards, columns and entries as the service's Map, up to entry names |
| Grouping.IdsAscending | backend/routes/calculate.js:105 | rows ordered by id give ids in strictly ascending order, so first appearance is the key order `Object.values` uses |
| Ranking.SortedByNet | backend/src/services/CardService.js:130 | the order the comparator `b.net_savings - a.net_savings` asks for: net savings non-increasing |
| Ranking.SortByNetSavings | backend/src/services/CardService.js:130 | the in-place sort leaves the cards non-increasing by net_savings and a permutation of the input |
| CardService.ServiceSlots | backend/src/services/CardService.js:91 | the scored categories: exactly those with a truthy spend, each once, in processing order |
| CardService.UsableRate | backend/src/services/CardService.js:92-94 | a usable rate is the stored percentage of the first entry with the category's key, and is never 0; conversely, a first entry with a non-NULL, non-zero percentage always gives a usable rate; a falsy or missing one leaves the default multiplier (FalsyRateIsDefault) |
| CardService.ServiceRaw | backend/src/services/CardService.js:93-98 | the unrounded savings: spend times the usable rate / 100, or spend times the default multiplier; FalsyRateIsDefault and StoredAndDefaultRateExample state it |
| CardService.ServiceContribution | backend/src/services/CardService.js:90-105 | one calculateCategory call as a value: nothing for a falsy spend, otherwise one contribution with the category's label, ServiceRaw's savings and the spend; CalculateCategory is proved against it |
| CardService.ServiceContributions | backend/src/services/CardService.js:107-110 | the four calls in the order travel, shopping, fuel, food; ServiceContributionsFollowSpends and ServiceContributionsSplit state what they contribute |
| CardService.ServiceScore | backend/src/services/CardService.js:86-128 | the service's scored card, the specification ScoreCard is proved against; ServiceEntriesFollowSpends and the Cards lemmas give its contents |
| CardService.ServiceScores | backend/src/services/CardService.js:86 | the `map` over the grouped cards: one scored card per card, in order |
| CardService.DefaultRaw | backend/src/services/CardService.js:30-33 | a fallback category's unrounded savings: spend times the default multiplier for a truthy spend, otherwise 0 |
| CardService.DefaultEntry | backend/src/services/CardService.js:35-38 | a fallback category's entry: present only for a truthy spend, the rounded formula, with no `spent` |
| CardService.DefaultEntries | backend/src/services/CardService.js:35-38 | the fallback's four pushes in the order travel, shopping, fuel, food; DefaultCardEntriesFollowSpends states their content |
| CardService.BuildDefaultCard | backend/src/services/CardService.js:26-48 | the fallback card has no id, the fixed names, annual fee 1500 and best_for "Fuel Spends & Travel" for all spends; its net is its total minus 1500 |
| CardService.DefaultCardEntriesFollowSpends | backend/src/services/CardService.js:28-38 | the fallback's entries: one per truthy spend, travel, shopping, fuel, food, each the rounded default formula, without `spent` |
| CardService.FallbackNetWithoutSpends | backend/src/services/CardService.js:40-45 | with no spends the fallback has no entries and a net of -1500 |
| CardService.ServiceContributionsFollowSpends | backend/src/services/CardService.js:90-110 | the four calculateCategory calls contribute one entry per truthy spend, in processing order |
| CardService.ServiceEntriesFollowSpends | backend/src/services/CardService.js:99-110 | a scored card has as many entries as truthy spends; each has the category's label, the rounded savings and the spend |
| CardService.FalsyRateIsDefault | backend/src/services/CardService.js:94-98 | a stored percentage of 0 or NULL is ignored: the category uses spend times the default multiplier, like a card with no entries |
| CardService.ServiceAllZero | backend/src/services/CardService.js:91-125 | all spends 0: no entries, total 0, "General Spends", net = round(-fee) |
| CardService.DefaultCardIsCardWithoutRates | backend/src/services/CardService.js:26-48 | the fallback card equals a catalogue card with no rates and fee 1500 in total, net and displayed entries, except for the missing `spent` |
| CardService.ServiceContributionsSplit | backend/src/services/CardService.js:99-110 | the card total and the entry list are the four calls' totals and entries, concatenated |
| CardService.CalculateCategory | backend/src/services/CardService.js:90-105 | one call: a falsy spend changes nothing; otherwise the unrounded savings is added to the total and the rounded entry pushed |
| CardService.ScoreCard | backend/src/services/CardService.js:86-128 | the per-card callback yields the specified scored card |
| CardService.GetCardRecommendations | backend/src/services/CardService.js:50-131 | null or no rows: exactly the fallback card; otherwise a permutation of the grouped, scored cards, sorted non-increasing by net savings |
| CardService.DefaultCardExample | backend/src/services/CardService.js:26-48 | spends 12000/8000/6000/5000: entries 9600, 12000, 14400, 17500, total 53500, net 52000 |
| CardService.StoredAndDefaultRateExample | backend/src/services/CardService.js:92-98 | a stored fuel rate of 9% on 6000 saves 540; food without a rate uses the default, 17500 on 5000 |
| CardService.TieGoesToEarlierCategory | backend/src/services/CardService.js:112-113 | equal travel and fuel savings: the card is "Travel Spends & More" |
| CardService.NeedsFallback | backend/src/services/CardService.js:140-143 | the condition for the built-in details: features missing or empty, and eligibility missing |
| CardService.GetCardById | backend/src/services/CardService.js:134-168 | a missing card gives null; a card lacking both features and eligibility gets the three built-in features and eligibility 21-60 / 500000 / 750; any other card is returned unchanged; afterwards no card lacks both |
| LegacyCalculate.LegacyConstants | backend/routes/calculate.js:14-17 | with no parsable environment value the constants are 2, 3, 4 and 5; no constant is ever 0 |
| LegacyCalculate.LegacyConstant | backend/routes/calculate.js:14 | `parseFloat(..) \|\| fallback`: the fallback or a non-zero parsed value, and every non-zero parsed value is kept |
| LegacyCalculate.ConstantFallbacks | backend/routes/calculate.js:14-17 | the route falls back on an unparsable value and on 0; the service's constants module keeps a parsed 0 |
| LegacyCalculate.ConstantsAgreeUnlessZero | backend/src/config/constants.js:1-10 | for an environment string that both readers parse to the same value, the route's and the service's constants agree exactly unless that value is 0 (and the fallback is not) |
| LegacyCalculate.Scored | backend/routes/calculate.js:110 | the `x > 0` test each category block opens with |
| LegacyCalculate.LegacySlots | backend/routes/calculate.js:110 | every category the route scores has a spend > 0 |
| LegacyCalculate.LegacySlotsInOrder | backend/routes/calculate.js:110-174 | the route scores exactly the categories with a spend > 0, each once, in processing order |
| LegacyCalculate.AbsentFieldIsUnscored | backend/routes/calculate.js:11 | each absent body field, of the four, defaults to 0 and its category is not scored |
| LegacyCalculate.FieldOrZero | backend/routes/calculate.js:11 | the destructuring default: an absent field is 0, a present one keeps its value |
| LegacyCalculate.BodySpends | backend/routes/calculate.js:11 | the four spends read from the body, each by FieldOrZero |
| LegacyCalculate.FormulaTotal | backend/routes/calculate.js:20-26 | `totalSavings`: the sum of the four default formulas, whatever the sign of each spend |
| LegacyCalculate.MockEntry | backend/routes/calculate.js:63-74 | one mock push: present only for a spend > 0, the category's label and rounded formula, with no `spent` |
| LegacyCalculate.MockCard | backend/routes/calculate.js:50-77 | the mock card has no id and fee 1500; its total is round(sum of all four formulas), whatever their signs; its net is total - 1500 |
| LegacyCalculate.MockEntriesFollowSpends | backend/routes/calculate.js:63-74 | the mock card's entries: one per spend > 0, in order, the rounded formula, no `spent` |
| LegacyCalculate.MockTotalCountsNegativeSpend | backend/routes/calculate.js:20-26 | travel -1000: total -800, net -2300, and no entries |
| LegacyCalculate.LegacyContributionsFollowSpends | backend/routes/calculate.js:110-193 | the four blocks contribute one entry per spend > 0, in processing order |
| LegacyCalculate.LegacyEntriesFollowSpends | backend/routes/calculate.js:110-193 | each entry has the stored name (or the label when it is empty), the rounded savings and the spend |
| LegacyCalculate.StoredFalsyRateSavesNothing | backend/routes/calculate.js:111-114 | a stored entry with percentage 0 or NULL saves 0 in that category: no fallback to the default formula |
| LegacyCalculate.PercentOrZero | backend/routes/calculate.js:113 | a NULL percentage acts as 0 in `pct / 100` |
| LegacyCalculate.LegacyRaw | backend/routes/calculate.js:111-124 | the route's unrounded savings: with a stored entry for the key, spend times its percentage / 100 whatever that is; otherwise spend times the default multiplier |
| LegacyCalculate.LegacyLabel | backend/routes/calculate.js:116 | the route's label is never empty: the stored entry's name when non-empty, otherwise the category's label |
| LegacyCalculate.LegacyContribution | backend/routes/calculate.js:110-130 | one `if (x > 0)` block as a value: nothing unless the spend is positive, otherwise one contribution with LegacyLabel's name, LegacyRaw's savings and the spend; ScoreCategory and EngineAgreement.SlotAgrees are stated against it |
| LegacyCalculate.LegacyContributions | backend/routes/calculate.js:110-193 | the four blocks in the order travel, shopping, fuel, food; LegacyContributionsFollowSpends and LegacyContributionsSplit state what they contribute |
| LegacyCalculate.LegacyScore | backend/routes/calculate.js:105-212 | the route's scored card, the specification its ScoreCard is proved against; LegacyEntriesFollowSpends and the Cards lemmas give its contents |
| LegacyCalculate.LegacyScores | backend/routes/calculate.js:105 | the `map` over the grouped cards: one scored card per card, in order |
| LegacyCalculate.LegacyContributionsSplit | backend/routes/calculate.js:106-193 | the card total and entry list are the four blocks' totals and entries, concatenated |
| LegacyCalculate.ScoreCategory | backend/routes/calculate.js:110-130 | one block: a spend <= 0 changes nothing; otherwise the stored-rate or default savings is added and the entry pushed |
| LegacyCalculate.ScoreCard | backend/routes/calculate.js:105-212 | the per-card callback yields the specified scored card |
| LegacyCalculate.Calculate | backend/routes/calculate.js:9-217 | with the constants read from the environment by the route's own rule: no rows gives exactly the mock card; otherwise a permutation of the grouped, scored cards, sorted non-increasing by net savings |
| EngineAgreement.MockIsDefaultCard | backend/routes/calculate.js:50-77 | the mock card and the service's fallback card always have the same total and net, and are equal exactly when no spend is negative |
| EngineAgreement.MockTotalIsDefaultTotal | backend/routes/calculate.js:26 | a zero spend adds 0, so summing all four formulas equals summing the truthy ones |
| EngineAgreement.MockEntriesAreDefaultEntries | backend/routes/calculate.js:63-74 | with no negative spend, the two fallback cards list the same entries |
| EngineAgreement.FewerScoredSlots | backend/routes/calculate.js:110 | each category with a negative spend is scored by the service and not by the route; every category the route scores, the service scores too; so the route scores fewer |
| EngineAgreement.RawAgrees | backend/routes/calculate.js:111-129 | with stored percentages that are not 0 or NULL, both engines compute the same unrounded savings |
| EngineAgreement.LabelAgrees | backend/routes/calculate.js:116 | with stored names empty or equal to the label, the route labels each category like the service |
| EngineAgreement.SlotAgrees | backend/routes/calculate.js:110-130 | for a non-negative spend, one category contributes the same in both engines |
| EngineAgreement.CardScoresAgree | backend/routes/calculate.js:105-212 | with non-negative spends and such rates, both engines score a card identically |
| EngineAgreement.EnginesAgree | backend/routes/calculate.js:105-212 | with non-negative spends and only such rows, the grouped catalogue scores identically, card for card, under both engines |
| EngineAgreement.NullRateDisagreement | backend/routes/calculate.js:113 | a stored NULL travel rate on 1000: the service saves 800 (default formula), the route 0 |
| JsonValues.TruthyJson | backend/src/controllers/RecommendationController.js:6-9 | JavaScript truthiness of a body value: false, 0, "" and null are falsy, every array and object is truthy |
| JsonValues.SafeNumber | backend/src/validators/calculate.validator.js:4-7 | what Joi's `number()` lets through: a number between -(2^53 - 1) and 2^53 - 1 |
| JsonValues.NonNegativeNumber | backend/src/validators/calculate.validator.js:4-7 | `number().min(0)`: a safe number at least 0 |
| JsonValues.OptionalField | backend/src/validators/calculate.validator.js:4-7 | `.optional()`: the field is absent, or present and satisfies its rule |
| JsonValues.Restrict | backend/src/middleware/validate.js:6-10 | unknown keys stripped: the result has exactly the allowed keys of the input, with their values |
| CalculateValidator.ErrorMessage | backend/src/validators/calculate.validator.js:18-20 | the text reported per error: Joi's default texts for the field rules, and the message set for `any.custom` |
| CalculateValidator.FieldErrors | backend/src/validators/calculate.validator.js:4-7 | a spend field is valid exactly when it is absent or a safe number >= 0; otherwise it has exactly one error, chosen by the first rule it breaks: not a number, then not a safe number, then below 0 |
| CalculateValidator.SpendFieldsValid | backend/src/validators/calculate.validator.js:4-7 | every present spend field is a safe number >= 0 |
| CalculateValidator.HasSpendCategory | backend/src/validators/calculate.validator.js:10-12 | the custom rule: some spend field is present, whatever its value |
| CalculateValidator.AllFieldErrors | backend/src/validators/calculate.validator.js:3-8 | no field errors exactly when every field is valid; every listed error is the own error of one of the fields, and every field with an error has it listed |
| CalculateValidator.ValidateCalculate | backend/src/validators/calculate.validator.js:3-20 | accepted exactly when every present spend is a safe number >= 0 and one is present; the accepted body keeps only the spend fields; with an invalid field the rejection is exactly the field errors in field order, and with valid fields only the custom error |
| CalculateValidator.AllZeroAccepted | backend/src/validators/calculate.validator.js:10-12 | a body whose only spend is 0 is accepted, despite the "greater than zero" message |
| CalculateValidator.EmptyBodyRejected | backend/src/validators/calculate.validator.js:13-19 | the empty body fails with the custom message alone |
| CalculateValidator.UnsafeSpendRejected | backend/src/validators/calculate.validator.js:4-7 | a spend beyond 2^53 - 1 in size, positive or negative, is rejected with the unsafe-number error alone |
| CalculateValidator.ValidateIdempotent | backend/src/validators/calculate.validator.js:16 | an accepted, stripped body is accepted again unchanged |
| CalculateValidator.UnknownKeysIgnored | backend/src/middleware/validate.js:8-9 | keys other than the four change neither the verdict nor the accepted value |
| CalculateValidator.AcceptedValuesNonNegative | backend/src/validators/calculate.validator.js:4-7 | every value of an accepted body is a spend field holding a number >= 0 |
| AnalyticsValidator.ValidateAnalytics | backend/src/validators/analytics.validator.js:3-31 | accepted exactly when the rules hold. The result keeps cardId, cardName, bankName and metadata as sent; userSpends is stripped to the four spends; savings is stripped to its three keys, keeps its totals, gets categories [] when absent, and each category item is stripped to category and savings; absent userSpends, savings and metadata become {} |
| AnalyticsValidator.AnalyticsValid | backend/src/validators/analytics.validator.js:3-31 | the payload rules: a safe integer cardId >= 1, a cardName and an optional bankName of 1 to 200 characters, optional spends >= 0, optional savings totals >= 0 with well-formed category items, an optional metadata object |
| AnalyticsValidator.PositiveInteger | backend/src/validators/analytics.validator.js:4 | cardId's rule: a safe whole number at least 1 |
| AnalyticsValidator.ShortName | backend/src/validators/analytics.validator.js:5-6 | cardName's and bankName's rule: a string of 1 to 200 characters |
| AnalyticsValidator.SpendsObject | backend/src/validators/analytics.validator.js:7-12 | userSpends, when present: an object whose four spend fields, where present, are numbers at least 0 |
| AnalyticsValidator.CategoryItem | backend/src/validators/analytics.validator.js:20-23 | one category item: an object with a non-empty `category` string and `savings` at least 0, both required |
| AnalyticsValidator.CategoryList | backend/src/validators/analytics.validator.js:18-24 | savings.categories, when present: an array of such items |
| AnalyticsValidator.SavingsObject | backend/src/validators/analytics.validator.js:15-27 | savings, when present: totals at least 0 where present, and a valid category list where present |
| AnalyticsValidator.StripItem | backend/src/validators/analytics.validator.js:20-23 | a category item with every key other than `category` and `savings` stripped |
| AnalyticsValidator.OrDefault | backend/src/validators/analytics.validator.js:14 | a field's own value, or the `.default(..)` value when it is absent |
| AnalyticsValidator.NormaliseSavings | backend/src/validators/analytics.validator.js:15-26 | a present savings object stripped to its keys, with categories defaulting to [] and each item stripped |
| AnalyticsValidator.NegativeNetSavingsRejected | backend/src/validators/analytics.validator.js:17 | a negative savings.netSavings is rejected, though the engines produce one whenever the fee exceeds the savings |
| AnalyticsValidator.MinimalPayload | backend/src/validators/analytics.validator.js:4-30 | an id and a name alone are accepted and filled with the three {} defaults |
| AnalyticsValidator.BadIdOrNameRejected | backend/src/validators/analytics.validator.js:4-5 | a missing cardId, a cardId of 1.5, or an empty cardName is rejected |
| AnalyticsValidator.ValidateAnalyticsIdempotent | backend/src/validators/analytics.validator.js:15-29 | a validated payload that had its own savings object validates again to itself |
| AnalyticsValidator.SavingsDefaultNotNormalised | backend/src/validators/analytics.validator.js:26-29 | an absent savings becomes {} without the inner categories default; sent back, that {} gains categories [] |
| AnalyticsValidator.SavingsNormalised | backend/src/validators/analytics.validator.js:7-26 | the normalised savings and userSpends of a valid payload satisfy their own rules |
| AnalyticsValidator.NormaliseSavingsIdempotent | backend/src/validators/analytics.validator.js:15-26 | normalising a valid savings object twice gives the same as once |
| RecommendationController.NumericSpends | backend/src/controllers/RecommendationController.js:5-10 | every present, truthy spend field is a number, as in a body the validator accepted, so `x \|\| 0` yields a number |
| RecommendationController.NormaliseFields | backend/src/controllers/RecommendationController.js:6-9 | each spend is the body's number when truthy; absent, null and 0 become 0 |
| RecommendationController.SpendOrZero | backend/src/controllers/RecommendationController.js:6 | `body.x \|\| 0`: a non-zero result is the body's number; a present number is passed on |
| RecommendationController.Normalise | backend/src/controllers/RecommendationController.js:5-10 | the spends object built from the four fields by SpendOrZero; NormaliseFields states it field by field |
| RecommendationController.NormaliseIgnoresOtherKeys | backend/src/controllers/RecommendationController.js:5-10 | keys other than the four never reach the service |
| RecommendationController.AcceptedBodyNormalises | backend/src/controllers/RecommendationController.js:5-10 | a body the validator accepts normalises, stripped or not, to the same spends, none negative |
| RecommendationController.CalculateRecommendations | backend/src/controllers/RecommendationController.js:4-14 | the response is the service's result for the normalised spends, unchanged |
| Cache.HasExpiry | backend/src/lib/RedisClient.js:17 | the entry's `expireAt` is truthy: present and not 0 |
| Cache.Expired | backend/src/lib/RedisClient.js:17 | the entry has a truthy expiry time no later than now |
| Cache.AfterSet | backend/src/lib/RedisClient.js:24-31 | set stores the value under the key, keeps a set expiry time, gives a new key none, and leaves other keys alone |
| Cache.AfterExpire | backend/src/lib/RedisClient.js:33-41 | expire moves the key's expiry to now + seconds * 1000, keeps its value, and leaves other keys alone |
| Cache.Lookup | backend/src/lib/RedisClient.js:12-22 | what get returns: the value of a present, unexpired entry; null otherwise |
| Cache.AfterGet | backend/src/lib/RedisClient.js:16-19 | the store after get: an expired entry read is removed; otherwise unchanged |
| Cache.InMemoryCache.constructor | backend/src/lib/RedisClient.js:8-10 | a new cache is empty |
| Cache.InMemoryCache.Get | backend/src/lib/RedisClient.js:12-22 | null for a missing or expired key, the value otherwise; only an expired key read is removed |
| Cache.InMemoryCache.Set | backend/src/lib/RedisClient.js:24-31 | replies "OK" and updates the store as specified |
| Cache.InMemoryCache.Expire | backend/src/lib/RedisClient.js:33-41 | 0 and no change for a missing key; otherwise 1 and the new expiry |
| Cache.InMemoryCache.Del | backend/src/lib/RedisClient.js:43-45 | 1 exactly when the key was present; afterwards it is absent and every other key unchanged |
| Cache.SetThenGet | backend/src/lib/RedisClient.js:24-31 | a value just set reads back unless the key kept an expiry time that has passed |
| Cache.SetLeavesOtherKeys | backend/src/lib/RedisClient.js:26-29 | setting a key does not change what any other key reads |
| Cache.SetKeepsPassedExpiry | backend/src/lib/RedisClient.js:25-28 | setting an expired, not yet evicted key keeps its passed expiry, so the new value is unreadable |
| Cache.DelThenGet | backend/src/lib/RedisClient.js:43-45 | a deleted key reads as null |
| Cache.ExpireRevives | backend/src/lib/RedisClient.js:38-40 | expire on an expired, not yet evicted key revives its value until the new expiry |
| Cache.ExpireThenTimeout | backend/src/lib/RedisClient.js:17 | once the new expiry time is reached, the key reads as null |
| Cache.EvictionUnobservable | backend/src/lib/RedisClient.js:17-20 | the eviction in get changes no key's reading, then or later |
| ApiClient.StripTrailingSlash | frontend/lib/apiClient.js:1 | one trailing '/' is removed when present; otherwise the string is unchanged |
| ApiClient.ApiBaseValue | frontend/lib/apiClient.js:1 | the configured base is "http://localhost:8080" |
| ApiClient.StartsWith | frontend/lib/apiClient.js:8 | `String.prototype.startsWith`: the string begins with the prefix |
| ApiClient.BuildUrl | frontend/lib/apiClient.js:3-13 | buildUrl: the result always ends with the path, and is the path itself or the base followed by more |
| ApiClient.PathPassesThrough | frontend/lib/apiClient.js:4-10 | with an empty base, or a path starting with "http", the path is returned as it is |
| ApiClient.JoinedUrlShape | frontend/lib/apiClient.js:12 | a joined URL starts with the base and ends with the path, with one '/' between them added only when the path lacks it |
| ApiClient.CardRequestUrl | frontend/lib/apiClient.js:46-57 | each path the request helpers pass (`/categories`, `/calculate-list`, `/cards/<id>`, `/analytics`) is appended to the configured base as it is |

## Left out

- Database access, HTTP handling, `res.json`, the error handler and logging. The catalogue rows, card details, request bodies and parsed environment values are parameters.
- The SQL query and its `ORDER BY c.id, cs.category_key`. Rows are taken as given. `Grouping.IdsAscending` shows that rows sorted by id give ids in ascending order. This is why the route's `Object.values` (integer keys ascending) is modelled as insertion order. Negative ids, which JavaScript would order differently, are not modelled. Since both engines sort their results, the difference could only show among cards with equal net savings.
- IEEE-754 arithmetic: amounts, percentages and `0.4 * constant` are exact reals.
- `parseFloat` and `Number` string parsing. Each reader gets its parsed value (None for NaN) as a parameter.
- ConstantsAgreeUnlessZero: stated for one parsed value given to both readers. The service reads with `Number` and the route with `parseFloat`, and those parse some strings differently: "12px" gives 2 in the service and 12 in the route, "" gives 0 and 2, "0x10" gives 16 and 2. The model does not parse strings, so this case is not covered.
- The route in backend/routes/calculate.js has no validator in front of it, and its body can hold strings, booleans or arrays, which JavaScript coerces in `> 0` and `*`. A form-encoded `travel=5000` is scored with `spent: "5000"`, and `"abc"` makes the mock total NaN. The route is modelled for number or null fields only.
- The database driver returns DECIMAL columns (`savings_percentage`, `annual_fees`, `rating`) as strings unless `decimalNumbers` is set, and neither pool sets it (backend/src/lib/MySQLClient.js:9-17, backend/config/database.js:8-16). The model takes these columns as numbers. Under the driver's default a stored 0 reaches the service as the truthy string "0.00" and saves 0 instead of falling back to the default multiplier. FalsyRateIsDefault, StoredFalsyRateSavesNothing, UsablePercentage and NullRateDisagreement describe the code over numeric rows. The schema declares `savings_percentage` NOT NULL (backend/scripts/createDatabase.js:130), so a NULL rate next to a present key cannot come from it.
- A JSON `null` spend in the route's body is folded into 0. The route uses it only in `> 0` tests and products, where null acts as 0.
- Joi's conversion of numeric strings to numbers. A spend given as a string such as "100" is treated as not a number.
- The wording of Joi's messages for the per-field errors is reproduced only as `CalculateValidator.ErrorMessage`. The analytics validator reports rejection without error details.
- Joi counting string length in UTF-16 code units; `cardName` length is counted in characters.
- Fractional `seconds` in `expire` (the model takes whole seconds), and cached values other than strings.
- The `RedisClient` class: connection set-up, TLS, fallback on error, the singleton.
- `apiFetch` and the exported request helpers, apart from the URLs they build.
- The service's constants are read once when its module loads; `GetCardRecommendations` takes them as a parameter (`Constants`), and `Cards.EnvConstant` gives the reading rule for each.
- Ranking.SortByNetSavings: `Array.prototype.sort` is stable, so cards with equal net savings keep their input order. That order is not modelled: only sortedness and the permutation are stated.
- The front-end pages and components.
- Joi's `number()` also rejects infinities and NaN; numbers here are exact reals and have neither.
- RecommendationController.CalculateRecommendations: requires every present spend to be a number, which the validator mounted before it guarantees; a request that bypassed the validator is not modelled.
