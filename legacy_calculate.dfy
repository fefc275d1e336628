/** The older route of backend/routes/calculate.js, which backend/server.js
    mounts at `POST /calculate-list` with no validator in front of it: it
    reads the four spends from the request body and the constants from the
    environment, scores every active card of
    the catalogue, and ranks them by net savings; with an empty catalogue it
    returns one mock card. It differs from the recommendation service in its
    defaults, its gates and its handling of stored rates. */
module LegacyCalculate {
  import opened Common
  import opened Cards
  import opened Grouping
  import opened Ranking

  /** The four spend fields of the request body, taken to be numbers; None
      when a field is absent. (A JSON null behaves as 0 in every use the route
      makes of it, so it is folded into Some(0.0).) Strings, booleans and
      arrays, which the unvalidated route also receives, are not modelled. */
  datatype Body = Body(travel: Option<real>, shopping: Option<real>, fuel: Option<real>, food: Option<real>)

  /** A destructuring default `= 0`: it applies only to an absent field. */
  function FieldOrZero(v: Option<real>): real {
    match v
    case None => 0.0
    case Some(x) => x
  }

  function BodySpends(b: Body): Spends {
    Spends(FieldOrZero(b.travel), FieldOrZero(b.shopping), FieldOrZero(b.fuel), FieldOrZero(b.food))
  }

  /** Reads one constant the way the route does, `parseFloat(...) || fallback`:
      a value that does not parse (None, NaN in the route) and a parsed 0 both
      fall back. */
  function LegacyConstant(parsed: Option<real>, fallback: real): (r: real)
    ensures r == fallback || (parsed == Some(r) && r != 0.0)
    ensures parsed.Some? && parsed.value != 0.0 ==> r == parsed.value
  {
    if parsed.Some? && Truthy(parsed.value) then parsed.value else fallback
  }

  /** `parseFloat` of the four environment variables TRAVEL_CONSTANT,
      SHOPING_CONSTANT, FUEL_CONSTANT and FOOD_CONSTANT; None stands for NaN. */
  datatype ParsedEnv = ParsedEnv(travel: Option<real>, shopping: Option<real>, fuel: Option<real>, food: Option<real>)

  /** The four constants from their parsed environment values, with the
      fallbacks 2, 3, 4 and 5. */
  function LegacyConstants(env: ParsedEnv): (k: Constants)
    ensures env.travel.None? && env.shopping.None? && env.fuel.None? && env.food.None? ==> k == DefaultConstants
    ensures k.travel != 0.0 && k.shopping != 0.0 && k.fuel != 0.0 && k.food != 0.0
  {
    Constants(
      LegacyConstant(env.travel, DefaultConstants.travel), LegacyConstant(env.shopping, DefaultConstants.shopping),
      LegacyConstant(env.fuel, DefaultConstants.fuel), LegacyConstant(env.food, DefaultConstants.food))
  }

  /** The fallbacks of both readers: the route falls back on an unparsable
      value and on 0; the service only on an unparsable value. */
  lemma ConstantFallbacks(v: real, fallback: real)
    requires v != 0.0
    ensures LegacyConstant(None, fallback) == fallback && EnvConstant(None, fallback) == fallback
    ensures LegacyConstant(Some(0.0), fallback) == fallback && EnvConstant(Some(0.0), fallback) == 0.0
    ensures LegacyConstant(Some(v), fallback) == v && EnvConstant(Some(v), fallback) == v
  {
  }

  /** A parsed environment value of 0 is the only one on which the route and
      the service's constants module disagree: the route falls back, the
      service keeps the 0. */
  lemma ConstantsAgreeUnlessZero(parsed: Option<real>, fallback: real)
    ensures LegacyConstant(parsed, fallback) == EnvConstant(parsed, fallback)
      <==> parsed != Some(0.0) || fallback == 0.0
  {
  }

  /** A spend the route scores: strictly positive. */
  predicate Scored(x: real) {
    x > 0.0
  }

  /** The spend categories with a positive spend, in processing order. */
  function LegacySlots(sp: Spends): (slots: seq<Slot>)
    ensures forall i :: 0 <= i < |slots| ==> Scored(SpendOf(sp, slots[i]))
  {
    (if Scored(sp.travel) then [Travel] else [])
      + (if Scored(sp.shopping) then [Shopping] else [])
      + (if Scored(sp.fuel) then [Fuel] else [])
      + (if Scored(sp.food) then [Food] else [])
  }

  /** Every category with a positive spend is scored, once, in processing order. */
  lemma LegacySlotsInOrder(sp: Spends)
    ensures forall s: Slot :: s in LegacySlots(sp) <==> Scored(SpendOf(sp, s))
    ensures forall i, j :: 0 <= i < j < |LegacySlots(sp)| ==> Position(LegacySlots(sp)[i]) < Position(LegacySlots(sp)[j])
  {
  }

  // ---- the mock card ----

  const MockAnnualFees: int := 1500

  /** The mock card's entry for one category, present only for a positive
      spend. */
  function MockEntry(sp: Spends, k: Constants, s: Slot): seq<CategoryEntry> {
    if Scored(SpendOf(sp, s)) then [FormulaEntry(sp, k, s)] else []
  }

  /** The formula total over all four categories, whatever their sign. */
  function FormulaTotal(sp: Spends, k: Constants): real {
    SpendOf(sp, Travel) * Multiplier(k, Travel) + SpendOf(sp, Shopping) * Multiplier(k, Shopping)
      + SpendOf(sp, Fuel) * Multiplier(k, Fuel) + SpendOf(sp, Food) * Multiplier(k, Food)
  }

  /** The mock card returned for an empty catalogue. Its total is rounded from
      the formula total of all four categories, also those with a zero or
      negative spend; its net is that total minus 1500; it has no id and its
      entries carry no `spent`. */
  function MockCard(sp: Spends, k: Constants): (c: ScoredCard)
    ensures c.id.None? && c.annualFees == MockAnnualFees as real
    ensures c.totalSavings == Round(FormulaTotal(sp, k))
    ensures c.netSavings == c.totalSavings - MockAnnualFees
  {
    var total := FormulaTotal(sp, k);
    RoundShift(total, MockAnnualFees);
    ScoredCard(
      None, "HDFC Regalia Gold Credit Card", "HDFC Bank", 4.5, 2847, "Fuel Spends & Travel",
      Round(total), MockAnnualFees as real, Round(total - MockAnnualFees as real),
      MockEntry(sp, k, Travel) + MockEntry(sp, k, Shopping) + MockEntry(sp, k, Fuel) + MockEntry(sp, k, Food))
  }

  /** The mock card's entries: one per positive spend, in the order travel,
      shopping, fuel, food, each the rounded default formula. */
  lemma MockEntriesFollowSpends(sp: Spends, k: Constants)
    ensures MockCard(sp, k).categories == FormulaEntries(LegacySlots(sp), sp, k)
  {
    var t := if Scored(sp.travel) then [Travel] else [];
    var s := if Scored(sp.shopping) then [Shopping] else [];
    var f := if Scored(sp.fuel) then [Fuel] else [];
    var d := if Scored(sp.food) then [Food] else [];
    assert MockEntry(sp, k, Travel) == FormulaEntries(t, sp, k);
    assert MockEntry(sp, k, Shopping) == FormulaEntries(s, sp, k);
    assert MockEntry(sp, k, Fuel) == FormulaEntries(f, sp, k);
    assert MockEntry(sp, k, Food) == FormulaEntries(d, sp, k);
    FormulaEntriesAppend(t, s, sp, k);
    FormulaEntriesAppend(t + s, f, sp, k);
    FormulaEntriesAppend(t + s + f, d, sp, k);
  }

  /** A negative spend lowers the mock card's total although it gets no
      entry: travel -1000 under the default constants gives a total of -800
      and no categories. */
  lemma MockTotalCountsNegativeSpend()
    ensures var c := MockCard(Spends(-1000.0, 0.0, 0.0, 0.0), DefaultConstants);
      c.totalSavings == -800 && c.netSavings == -2300 && c.categories == []
  {
    assert FormulaTotal(Spends(-1000.0, 0.0, 0.0, 0.0), DefaultConstants) == -800.0;
    RoundOfInteger(-800);
  }

  // ---- scoring a catalogue card ----

  /** A stored percentage as the division reads it: NULL counts as 0. */
  function PercentOrZero(p: Option<real>): real {
    match p
    case None => 0.0
    case Some(v) => v
  }

  /** The route's unrounded savings for a category: with a stored entry for
      the key, spend * pct / 100 whatever the percentage (NULL giving 0);
      otherwise spend times the default multiplier. */
  function LegacyRaw(card: Card, s: Slot, sp: Spends, k: Constants): real {
    match Find(card.categories, Key(s))
    case Some(c) => SpendOf(sp, s) * (PercentOrZero(c.percentage) / 100.0)
    case None => SpendOf(sp, s) * Multiplier(k, s)
  }

  /** The route's label for a category: the stored entry's name when it is
      non-empty, otherwise the category's own label. */
  function LegacyLabel(card: Card, s: Slot): (r: string)
    ensures |r| > 0
  {
    match Find(card.categories, Key(s))
    case Some(c) => if TruthyText(c.name) then c.name else Label(s)
    case None => Label(s)
  }

  /** One category block: nothing unless the spend is positive. */
  function LegacyContribution(card: Card, s: Slot, sp: Spends, k: Constants): seq<Contribution> {
    if Scored(SpendOf(sp, s)) then [Contribution(LegacyLabel(card, s), LegacyRaw(card, s, sp, k), Some(SpendOf(sp, s)))]
    else []
  }

  /** The four category blocks, travel, shopping, fuel, food. */
  function LegacyContributions(card: Card, sp: Spends, k: Constants): seq<Contribution> {
    LegacyContribution(card, Travel, sp, k) + LegacyContribution(card, Shopping, sp, k)
      + LegacyContribution(card, Fuel, sp, k) + LegacyContribution(card, Food, sp, k)
  }

  /** The route's result for one catalogue card. */
  function LegacyScore(card: Card, sp: Spends, k: Constants): ScoredCard {
    Finish(card.fields, LegacyContributions(card, sp, k))
  }

  function LegacyScores(cards: seq<Card>, sp: Spends, k: Constants): (r: seq<ScoredCard>)
    ensures |r| == |cards|
    ensures forall i :: 0 <= i < |cards| ==> r[i] == LegacyScore(cards[i], sp, k)
  {
    seq(|cards|, i requires 0 <= i < |cards| => LegacyScore(cards[i], sp, k))
  }

  /** The given categories' contributions, in order. */
  function LegacyContributionsOver(card: Card, slots: seq<Slot>, sp: Spends, k: Constants): (cs: seq<Contribution>)
    ensures |cs| == |slots|
    ensures forall i :: 0 <= i < |slots| ==>
      cs[i] == Contribution(LegacyLabel(card, slots[i]), LegacyRaw(card, slots[i], sp, k), Some(SpendOf(sp, slots[i])))
  {
    seq(|slots|, i requires 0 <= i < |slots| => Contribution(LegacyLabel(card, slots[i]), LegacyRaw(card, slots[i], sp, k), Some(SpendOf(sp, slots[i]))))
  }

  lemma LegacyContributionsOverAppend(card: Card, a: seq<Slot>, b: seq<Slot>, sp: Spends, k: Constants)
    ensures LegacyContributionsOver(card, a + b, sp, k) == LegacyContributionsOver(card, a, sp, k) + LegacyContributionsOver(card, b, sp, k)
  {
  }

  /** The contributions are one per positive spend, in processing order. */
  lemma LegacyContributionsFollowSpends(card: Card, sp: Spends, k: Constants)
    ensures LegacyContributions(card, sp, k) == LegacyContributionsOver(card, LegacySlots(sp), sp, k)
  {
    var t := if Scored(sp.travel) then [Travel] else [];
    var s := if Scored(sp.shopping) then [Shopping] else [];
    var f := if Scored(sp.fuel) then [Fuel] else [];
    var d := if Scored(sp.food) then [Food] else [];
    assert LegacyContribution(card, Travel, sp, k) == LegacyContributionsOver(card, t, sp, k);
    assert LegacyContribution(card, Shopping, sp, k) == LegacyContributionsOver(card, s, sp, k);
    assert LegacyContribution(card, Fuel, sp, k) == LegacyContributionsOver(card, f, sp, k);
    assert LegacyContribution(card, Food, sp, k) == LegacyContributionsOver(card, d, sp, k);
    LegacyContributionsOverAppend(card, t, s, sp, k);
    LegacyContributionsOverAppend(card, t + s, f, sp, k);
    LegacyContributionsOverAppend(card, t + s + f, d, sp, k);
  }

  /** A scored card's entries: one per positive spend, in the order travel,
      shopping, fuel, food, each labelled by the stored name or the
      category's own label, with the rounded savings and the spend. */
  lemma LegacyEntriesFollowSpends(card: Card, sp: Spends, k: Constants)
    ensures var c := LegacyScore(card, sp, k);
      var slots := LegacySlots(sp);
      && |c.categories| == |slots|
      && forall i :: 0 <= i < |slots| ==>
          c.categories[i] == CategoryEntry(LegacyLabel(card, slots[i]), Round(LegacyRaw(card, slots[i], sp, k)), Some(SpendOf(sp, slots[i])))
  {
    LegacyContributionsFollowSpends(card, sp, k);
  }

  /** A stored entry whose percentage is NULL or 0 makes the category save
      nothing: the route does not fall back to the default formula. */
  lemma StoredFalsyRateSavesNothing(card: Card, s: Slot, sp: Spends, k: Constants)
    requires Find(card.categories, Key(s)).Some?
    requires var p := Find(card.categories, Key(s)).value.percentage; p.None? || p.value == 0.0
    ensures LegacyRaw(card, s, sp, k) == 0.0
  {
  }

  /** The four category totals and entries, concatenated. */
  lemma LegacyContributionsSplit(card: Card, sp: Spends, k: Constants)
    ensures var a := LegacyContribution(card, Travel, sp, k);
      var b := LegacyContribution(card, Shopping, sp, k);
      var c := LegacyContribution(card, Fuel, sp, k);
      var d := LegacyContribution(card, Food, sp, k);
      && RawSum(LegacyContributions(card, sp, k)) == RawSum(a) + RawSum(b) + RawSum(c) + RawSum(d)
      && Entries(LegacyContributions(card, sp, k)) == Entries(a) + Entries(b) + Entries(c) + Entries(d)
  {
    var a := LegacyContribution(card, Travel, sp, k);
    var b := LegacyContribution(card, Shopping, sp, k);
    var c := LegacyContribution(card, Fuel, sp, k);
    var d := LegacyContribution(card, Food, sp, k);
    RawSumAppend(a, b);
    RawSumAppend(a + b, c);
    RawSumAppend(a + b + c, d);
    EntriesAppend(a, b);
    EntriesAppend(a + b, c);
    EntriesAppend(a + b + c, d);
  }

  /** One `if (spend > 0)` block of the per-card callback: adds the unrounded
      savings to the running total and pushes the rounded entry. */
  method ScoreCategory(card: Card, s: Slot, sp: Spends, k: Constants,
                       cardTotalSavings: real, categorySavings: seq<CategoryEntry>)
    returns (total: real, entries: seq<CategoryEntry>)
    ensures total == cardTotalSavings + RawSum(LegacyContribution(card, s, sp, k))
    ensures entries == categorySavings + Entries(LegacyContribution(card, s, sp, k))
  {
    total, entries := cardTotalSavings, categorySavings;
    var spend := SpendOf(sp, s);
    if !Scored(spend) {
      return;
    }
    var category := Find(card.categories, Key(s));
    var savings: real;
    var name: string;
    if category.Some? {
      savings := spend * (PercentOrZero(category.value.percentage) / 100.0);
      name := if TruthyText(category.value.name) then category.value.name else Label(s);
    } else {
      savings := spend * Multiplier(k, s);
      name := Label(s);
    }
    total := total + savings;
    entries := entries + [CategoryEntry(name, Round(savings), Some(spend))];
    assert [Contribution(name, savings, Some(spend))][..0] == [];
  }

  /** The per-card callback of the `map`. */
  method ScoreCard(card: Card, sp: Spends, k: Constants) returns (scored: ScoredCard)
    ensures scored == LegacyScore(card, sp, k)
  {
    var cardTotalSavings := 0.0;
    var categorySavings: seq<CategoryEntry> := [];
    cardTotalSavings, categorySavings := ScoreCategory(card, Travel, sp, k, cardTotalSavings, categorySavings);
    cardTotalSavings, categorySavings := ScoreCategory(card, Shopping, sp, k, cardTotalSavings, categorySavings);
    cardTotalSavings, categorySavings := ScoreCategory(card, Fuel, sp, k, cardTotalSavings, categorySavings);
    cardTotalSavings, categorySavings := ScoreCategory(card, Food, sp, k, cardTotalSavings, categorySavings);
    FinishOfFour(card.fields, LegacyContribution(card, Travel, sp, k), LegacyContribution(card, Shopping, sp, k),
      LegacyContribution(card, Fuel, sp, k), LegacyContribution(card, Food, sp, k), cardTotalSavings, categorySavings);
    scored := ScoredCard(
      Some(card.fields.id), card.fields.cardName, card.fields.bankName, card.fields.rating,
      card.fields.reviewsCount, BestFor(categorySavings), Round(cardTotalSavings),
      card.fields.annualFees, Round(cardTotalSavings - card.fields.annualFees), categorySavings);
  }

  /** The route's response, with the request body, the parsed environment
      values and the catalogue rows passed in; the constants are read from the
      environment values as the route reads them. No rows: exactly the mock
      card. Otherwise the grouped cards (entry names kept as read), each
      scored, in an order sorted non-increasing by net savings. */
  method Calculate(body: Body, env: ParsedEnv, rows: seq<Row>) returns (results: seq<ScoredCard>)
    ensures |rows| == 0 ==> results == [MockCard(BodySpends(body), LegacyConstants(env))]
    ensures |rows| > 0 ==>
      && SortedByNet(results)
      && multiset(results) == multiset(LegacyScores(Group(rows, false), BodySpends(body), LegacyConstants(env)))
  {
    var k := LegacyConstants(env);
    var sp := BodySpends(body);
    if |rows| == 0 {
      return [MockCard(sp, k)];
    }
    var cards := GroupRows(rows, false);
    var scored := new ScoredCard[|cards|];
    var i := 0;
    while i < |cards|
      invariant 0 <= i <= |cards|
      invariant forall j :: 0 <= j < i ==> scored[j] == LegacyScore(cards[j], sp, k)
    {
      scored[i] := ScoreCard(cards[i], sp, k);
      i := i + 1;
    }
    assert scored[..] == LegacyScores(cards, sp, k);
    SortByNetSavings(scored);
    results := scored[..];
  }

  /** An absent field counts as 0 and leaves its category unscored. */
  lemma AbsentFieldIsUnscored(body: Body)
    ensures body.travel.None? ==> BodySpends(body).travel == 0.0 && Travel !in LegacySlots(BodySpends(body))
    ensures body.shopping.None? ==> BodySpends(body).shopping == 0.0 && Shopping !in LegacySlots(BodySpends(body))
    ensures body.fuel.None? ==> BodySpends(body).fuel == 0.0 && Fuel !in LegacySlots(BodySpends(body))
    ensures body.food.None? ==> BodySpends(body).food == 0.0 && Food !in LegacySlots(BodySpends(body))
  {
  }
}
