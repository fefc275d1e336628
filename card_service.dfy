/** The recommendation service: scores every active card of the catalogue
    against the user's four category spends and ranks them by net savings;
    with an empty catalogue it returns one built-in fallback card. Also the
    card-detail lookup with its built-in features and eligibility. */
module CardService {
  import opened Common
  import opened Cards
  import opened Grouping
  import opened Ranking

  // The built-in fallback card.
  const DefaultCardName: string := "HDFC Regalia Gold Credit Card"
  const DefaultBankName: string := "HDFC Bank"
  const DefaultRating: real := 4.5
  const DefaultReviewsCount: int := 2847
  const DefaultBestFor: string := "Fuel Spends & Travel"
  const DefaultAnnualFees: int := 1500

  /** The fallback card's unrounded savings for one category: the default
      formula when the spend is truthy, otherwise 0. */
  function DefaultRaw(spends: Spends, k: Constants, s: Slot): real {
    if Truthy(SpendOf(spends, s)) then SpendOf(spends, s) * Multiplier(k, s) else 0.0
  }

  /** The fallback card's entry for one category, present only for a truthy
      spend, and without a `spent` figure. */
  function DefaultEntry(spends: Spends, k: Constants, s: Slot): seq<CategoryEntry> {
    if Truthy(SpendOf(spends, s)) then [FormulaEntry(spends, k, s)] else []
  }

  /** The spend categories with a truthy spend, in processing order. */
  function ServiceSlots(spends: Spends): (slots: seq<Slot>)
    ensures forall s: Slot :: s in slots <==> Truthy(SpendOf(spends, s))
    ensures forall i, j :: 0 <= i < j < |slots| ==> Position(slots[i]) < Position(slots[j])
  {
    (if Truthy(spends.travel) then [Travel] else [])
      + (if Truthy(spends.shopping) then [Shopping] else [])
      + (if Truthy(spends.fuel) then [Fuel] else [])
      + (if Truthy(spends.food) then [Food] else [])
  }

  /** buildDefaultCard: the fallback card scored with default multipliers only.
      Whatever the spends, it has no id, an annual fee of 1500 and the fixed
      best_for label; its entries follow the truthy spends in processing
      order and carry no `spent`; and its net savings is its total minus 1500. */
  function BuildDefaultCard(spends: Spends, k: Constants): (c: ScoredCard)
    ensures c.id.None? && c.cardName == DefaultCardName && c.bankName == DefaultBankName
    ensures c.annualFees == DefaultAnnualFees as real && c.bestFor == DefaultBestFor
    ensures c.netSavings == c.totalSavings - DefaultAnnualFees
  {
    var total := DefaultRaw(spends, k, Travel) + DefaultRaw(spends, k, Shopping)
      + DefaultRaw(spends, k, Fuel) + DefaultRaw(spends, k, Food);
    RoundShift(total, DefaultAnnualFees);
    ScoredCard(
      None, DefaultCardName, DefaultBankName, DefaultRating, DefaultReviewsCount, DefaultBestFor,
      Round(total), DefaultAnnualFees as real, Round(total - DefaultAnnualFees as real),
      DefaultEntries(spends, k))
  }

  function DefaultEntries(spends: Spends, k: Constants): seq<CategoryEntry> {
    DefaultEntry(spends, k, Travel) + DefaultEntry(spends, k, Shopping)
      + DefaultEntry(spends, k, Fuel) + DefaultEntry(spends, k, Food)
  }

  /** With no spends the fallback card's net savings is -1500. */
  lemma FallbackNetWithoutSpends(k: Constants)
    ensures BuildDefaultCard(Spends(0.0, 0.0, 0.0, 0.0), k).netSavings == -DefaultAnnualFees
    ensures BuildDefaultCard(Spends(0.0, 0.0, 0.0, 0.0), k).categories == []
  {
    RoundOfInteger(0);
  }

  /** The fallback card's entries: one per truthy spend, in the order travel,
      shopping, fuel, food, each the rounded default formula, none with a
      `spent` figure. */
  lemma DefaultCardEntriesFollowSpends(spends: Spends, k: Constants)
    ensures BuildDefaultCard(spends, k).categories == FormulaEntries(ServiceSlots(spends), spends, k)
  {
    var t := if Truthy(spends.travel) then [Travel] else [];
    var s := if Truthy(spends.shopping) then [Shopping] else [];
    var f := if Truthy(spends.fuel) then [Fuel] else [];
    var d := if Truthy(spends.food) then [Food] else [];
    assert DefaultEntry(spends, k, Travel) == FormulaEntries(t, spends, k);
    assert DefaultEntry(spends, k, Shopping) == FormulaEntries(s, spends, k);
    assert DefaultEntry(spends, k, Fuel) == FormulaEntries(f, spends, k);
    assert DefaultEntry(spends, k, Food) == FormulaEntries(d, spends, k);
    FormulaEntriesAppend(t, s, spends, k);
    FormulaEntriesAppend(t + s, f, spends, k);
    FormulaEntriesAppend(t + s + f, d, spends, k);
  }

  /** The card's own rate for a category, when usable: its first entry for
      the key, if that entry's percentage is truthy (not NULL, not 0). */
  function UsableRate(card: Card, s: Slot): (r: Option<real>)
    ensures r.Some? ==> r.value != 0.0
    ensures r.Some? ==> Find(card.categories, Key(s)).Some? && Find(card.categories, Key(s)).value.percentage == r
    ensures (Find(card.categories, Key(s)).Some? && Find(card.categories, Key(s)).value.percentage.Some?
             && Find(card.categories, Key(s)).value.percentage.value != 0.0) ==> r.Some?
  {
    match Find(card.categories, Key(s))
    case Some(c) => if c.percentage.Some? && Truthy(c.percentage.value) then c.percentage else None
    case None => None
  }

  /** calculateCategory's unrounded savings: spend * pct / 100 with a usable
      rate, otherwise spend times the category's default multiplier. */
  function ServiceRaw(card: Card, s: Slot, spends: Spends, k: Constants): real {
    match UsableRate(card, s)
    case Some(p) => SpendOf(spends, s) * (p / 100.0)
    case None => SpendOf(spends, s) * Multiplier(k, s)
  }

  /** calculateCategory: nothing for a falsy spend, otherwise one entry. */
  function ServiceContribution(card: Card, s: Slot, spends: Spends, k: Constants): seq<Contribution> {
    if Truthy(SpendOf(spends, s)) then [Contribution(Label(s), ServiceRaw(card, s, spends, k), Some(SpendOf(spends, s)))]
    else []
  }

  /** The four calculateCategory calls, travel, shopping, fuel, food. */
  function ServiceContributions(card: Card, spends: Spends, k: Constants): seq<Contribution> {
    ServiceContribution(card, Travel, spends, k) + ServiceContribution(card, Shopping, spends, k)
      + ServiceContribution(card, Fuel, spends, k) + ServiceContribution(card, Food, spends, k)
  }

  /** The service's result for one catalogue card. */
  function ServiceScore(card: Card, spends: Spends, k: Constants): ScoredCard {
    Finish(card.fields, ServiceContributions(card, spends, k))
  }

  function ServiceScores(cards: seq<Card>, spends: Spends, k: Constants): (r: seq<ScoredCard>)
    ensures |r| == |cards|
    ensures forall i :: 0 <= i < |cards| ==> r[i] == ServiceScore(cards[i], spends, k)
  {
    seq(|cards|, i requires 0 <= i < |cards| => ServiceScore(cards[i], spends, k))
  }

  /** The given categories' calculateCategory contributions, in order. */
  function ContributionsOver(card: Card, slots: seq<Slot>, spends: Spends, k: Constants): (cs: seq<Contribution>)
    ensures |cs| == |slots|
    ensures forall i :: 0 <= i < |slots| ==>
      cs[i] == Contribution(Label(slots[i]), ServiceRaw(card, slots[i], spends, k), Some(SpendOf(spends, slots[i])))
  {
    seq(|slots|, i requires 0 <= i < |slots| => Contribution(Label(slots[i]), ServiceRaw(card, slots[i], spends, k), Some(SpendOf(spends, slots[i]))))
  }

  lemma ContributionsOverAppend(card: Card, a: seq<Slot>, b: seq<Slot>, spends: Spends, k: Constants)
    ensures ContributionsOver(card, a + b, spends, k) == ContributionsOver(card, a, spends, k) + ContributionsOver(card, b, spends, k)
  {
  }

  /** The contributions are one per truthy spend, in processing order, each
      computed by calculateCategory's rule. */
  lemma ServiceContributionsFollowSpends(card: Card, spends: Spends, k: Constants)
    ensures ServiceContributions(card, spends, k) == ContributionsOver(card, ServiceSlots(spends), spends, k)
  {
    var t := if Truthy(spends.travel) then [Travel] else [];
    var s := if Truthy(spends.shopping) then [Shopping] else [];
    var f := if Truthy(spends.fuel) then [Fuel] else [];
    var d := if Truthy(spends.food) then [Food] else [];
    assert ServiceContribution(card, Travel, spends, k) == ContributionsOver(card, t, spends, k);
    assert ServiceContribution(card, Shopping, spends, k) == ContributionsOver(card, s, spends, k);
    assert ServiceContribution(card, Fuel, spends, k) == ContributionsOver(card, f, spends, k);
    assert ServiceContribution(card, Food, spends, k) == ContributionsOver(card, d, spends, k);
    ContributionsOverAppend(card, t, s, spends, k);
    ContributionsOverAppend(card, t + s, f, spends, k);
    ContributionsOverAppend(card, t + s + f, d, spends, k);
  }

  /** A scored card's entries: one per truthy spend, in the order travel,
      shopping, fuel, food, each the rounded calculateCategory savings with
      the spend it came from. */
  lemma ServiceEntriesFollowSpends(card: Card, spends: Spends, k: Constants)
    ensures var c := ServiceScore(card, spends, k);
      var slots := ServiceSlots(spends);
      && |c.categories| == |slots|
      && forall i :: 0 <= i < |slots| ==>
          c.categories[i] == CategoryEntry(Label(slots[i]), Round(ServiceRaw(card, slots[i], spends, k)), Some(SpendOf(spends, slots[i])))
  {
    ServiceContributionsFollowSpends(card, spends, k);
  }

  /** A stored rate that is 0 or NULL is treated as no rate at all: the card
      scores that category exactly like a card with no entries. */
  lemma FalsyRateIsDefault(card: Card, s: Slot, spends: Spends, k: Constants)
    requires Find(card.categories, Key(s)).Some?
    requires var p := Find(card.categories, Key(s)).value.percentage; p.None? || p.value == 0.0
    ensures ServiceRaw(card, s, spends, k) == ServiceRaw(Card(card.fields, []), s, spends, k)
    ensures ServiceRaw(card, s, spends, k) == SpendOf(spends, s) * Multiplier(k, s)
  {
  }

  /** With every spend 0, every card saves nothing and is "best for"
      "General Spends". */
  lemma ServiceAllZero(card: Card, k: Constants)
    ensures var c := ServiceScore(card, Spends(0.0, 0.0, 0.0, 0.0), k);
      && c.totalSavings == 0 && c.categories == [] && c.bestFor == "General Spends"
      && c.netSavings == Round(-card.fields.annualFees)
  {
    var cs := ServiceContributions(card, Spends(0.0, 0.0, 0.0, 0.0), k);
    assert cs == [];
    RoundOfInteger(0);
  }

  /** The entries with their `spent` figures dropped. */
  function WithoutSpent(es: seq<CategoryEntry>): (r: seq<CategoryEntry>)
    ensures |r| == |es|
    ensures forall i :: 0 <= i < |es| ==> r[i] == es[i].(spent := None)
  {
    seq(|es|, i requires 0 <= i < |es| => es[i].(spent := None))
  }

  lemma WithoutSpentAppend(a: seq<CategoryEntry>, b: seq<CategoryEntry>)
    ensures WithoutSpent(a + b) == WithoutSpent(a) + WithoutSpent(b)
  {
  }

  /** One category of the fallback card against the same category of a card
      without rates. */
  lemma DefaultSlotIsSlotWithoutRates(fields: CardFields, s: Slot, spends: Spends, k: Constants)
    ensures var cs := ServiceContribution(Card(fields, []), s, spends, k);
      && RawSum(cs) == DefaultRaw(spends, k, s)
      && WithoutSpent(Entries(cs)) == DefaultEntry(spends, k, s)
  {
    var cs := ServiceContribution(Card(fields, []), s, spends, k);
    if Truthy(SpendOf(spends, s)) {
      assert cs[..0] == [];
    }
  }

  /** The four category calls' totals and entries, concatenated. */
  lemma ServiceContributionsSplit(card: Card, spends: Spends, k: Constants)
    ensures var a := ServiceContribution(card, Travel, spends, k);
      var b := ServiceContribution(card, Shopping, spends, k);
      var c := ServiceContribution(card, Fuel, spends, k);
      var d := ServiceContribution(card, Food, spends, k);
      && RawSum(ServiceContributions(card, spends, k)) == RawSum(a) + RawSum(b) + RawSum(c) + RawSum(d)
      && Entries(ServiceContributions(card, spends, k)) == Entries(a) + Entries(b) + Entries(c) + Entries(d)
  {
    var a := ServiceContribution(card, Travel, spends, k);
    var b := ServiceContribution(card, Shopping, spends, k);
    var c := ServiceContribution(card, Fuel, spends, k);
    var d := ServiceContribution(card, Food, spends, k);
    RawSumAppend(a, b);
    RawSumAppend(a + b, c);
    RawSumAppend(a + b + c, d);
    EntriesAppend(a, b);
    EntriesAppend(a + b, c);
    EntriesAppend(a + b + c, d);
  }

  /** The fallback card agrees with a catalogue card that has no rates of its
      own and an annual fee of 1500: same total, net and displayed savings per
      category; only the `spent` figures are missing from the fallback. */
  lemma DefaultCardIsCardWithoutRates(fields: CardFields, spends: Spends, k: Constants)
    requires fields.annualFees == DefaultAnnualFees as real
    ensures var d := BuildDefaultCard(spends, k);
      var c := ServiceScore(Card(fields, []), spends, k);
      && d.totalSavings == c.totalSavings
      && d.netSavings == c.netSavings
      && d.categories == WithoutSpent(c.categories)
  {
    var card := Card(fields, []);
    ServiceContributionsSplit(card, spends, k);
    DefaultSlotIsSlotWithoutRates(fields, Travel, spends, k);
    DefaultSlotIsSlotWithoutRates(fields, Shopping, spends, k);
    DefaultSlotIsSlotWithoutRates(fields, Fuel, spends, k);
    DefaultSlotIsSlotWithoutRates(fields, Food, spends, k);
    var a := Entries(ServiceContribution(card, Travel, spends, k));
    var b := Entries(ServiceContribution(card, Shopping, spends, k));
    var c := Entries(ServiceContribution(card, Fuel, spends, k));
    var d := Entries(ServiceContribution(card, Food, spends, k));
    WithoutSpentAppend(a, b);
    WithoutSpentAppend(a + b, c);
    WithoutSpentAppend(a + b + c, d);
  }

  /** One calculateCategory call: adds the unrounded savings to the running
      total and pushes the rounded entry. */
  method CalculateCategory(card: Card, s: Slot, spends: Spends, k: Constants,
                           cardTotalSavings: real, categorySavings: seq<CategoryEntry>)
    returns (total: real, entries: seq<CategoryEntry>)
    ensures total == cardTotalSavings + RawSum(ServiceContribution(card, s, spends, k))
    ensures entries == categorySavings + Entries(ServiceContribution(card, s, spends, k))
  {
    total, entries := cardTotalSavings, categorySavings;
    var spendValue := SpendOf(spends, s);
    if !Truthy(spendValue) {
      return;
    }
    var category := Find(card.categories, Key(s));
    var savings: real;
    if category.Some? && category.value.percentage.Some? && Truthy(category.value.percentage.value) {
      savings := spendValue * (category.value.percentage.value / 100.0);
    } else {
      savings := spendValue * Multiplier(k, s);
    }
    total := total + savings;
    entries := entries + [CategoryEntry(Label(s), Round(savings), Some(spendValue))];
    assert [Contribution(Label(s), savings, Some(spendValue))][..0] == [];
  }

  /** The per-card callback of the `map`: four category calls, then the
      best_for label, the rounded total and the rounded net. */
  method ScoreCard(card: Card, spends: Spends, k: Constants) returns (scored: ScoredCard)
    ensures scored == ServiceScore(card, spends, k)
  {
    var cardTotalSavings := 0.0;
    var categorySavings: seq<CategoryEntry> := [];
    cardTotalSavings, categorySavings := CalculateCategory(card, Travel, spends, k, cardTotalSavings, categorySavings);
    cardTotalSavings, categorySavings := CalculateCategory(card, Shopping, spends, k, cardTotalSavings, categorySavings);
    cardTotalSavings, categorySavings := CalculateCategory(card, Fuel, spends, k, cardTotalSavings, categorySavings);
    cardTotalSavings, categorySavings := CalculateCategory(card, Food, spends, k, cardTotalSavings, categorySavings);
    FinishOfFour(card.fields, ServiceContribution(card, Travel, spends, k), ServiceContribution(card, Shopping, spends, k),
      ServiceContribution(card, Fuel, spends, k), ServiceContribution(card, Food, spends, k), cardTotalSavings, categorySavings);
    scored := ScoredCard(
      Some(card.fields.id), card.fields.cardName, card.fields.bankName, card.fields.rating,
      card.fields.reviewsCount, BestFor(categorySavings), Round(cardTotalSavings),
      card.fields.annualFees, Round(cardTotalSavings - card.fields.annualFees), categorySavings);
  }

  /** getCardRecommendations, with the catalogue rows passed in (None stands
      for a null result). No rows: exactly the fallback card. Otherwise: the
      grouped cards, each scored, in an order sorted non-increasing by net
      savings. */
  method GetCardRecommendations(rows: Option<seq<Row>>, spends: Spends, k: Constants)
    returns (results: seq<ScoredCard>)
    ensures (rows.None? || |rows.value| == 0) ==> results == [BuildDefaultCard(spends, k)]
    ensures rows.Some? && |rows.value| > 0 ==>
      && SortedByNet(results)
      && multiset(results) == multiset(ServiceScores(Group(rows.value, true), spends, k))
  {
    if rows.None? || |rows.value| == 0 {
      var mockCard := BuildDefaultCard(spends, k);
      return [mockCard];
    }
    var cards := GroupRows(rows.value, true);
    var scored := new ScoredCard[|cards|];
    var i := 0;
    while i < |cards|
      invariant 0 <= i <= |cards|
      invariant forall j :: 0 <= j < i ==> scored[j] == ServiceScore(cards[j], spends, k)
    {
      scored[i] := ScoreCard(cards[i], spends, k);
      i := i + 1;
    }
    assert scored[..] == ServiceScores(cards, spends, k);
    SortByNetSavings(scored);
    results := scored[..];
  }

  /** The example of an empty catalogue with spends 12000, 8000, 6000 and 5000
      under the default constants: 9600 + 12000 + 14400 + 17500. */
  lemma DefaultCardExample()
    ensures var c := BuildDefaultCard(Spends(12000.0, 8000.0, 6000.0, 5000.0), DefaultConstants);
      && c.totalSavings == 53500 && c.netSavings == 52000
      && c.categories == [
        CategoryEntry("Travel", 9600, None), CategoryEntry("Shopping", 12000, None),
        CategoryEntry("Fuel", 14400, None), CategoryEntry("Food", 17500, None)]
  {
    var sp := Spends(12000.0, 8000.0, 6000.0, 5000.0);
    var k := DefaultConstants;
    assert DefaultRaw(sp, k, Travel) == 9600.0;
    assert DefaultRaw(sp, k, Shopping) == 12000.0;
    assert DefaultRaw(sp, k, Fuel) == 14400.0;
    assert DefaultRaw(sp, k, Food) == 17500.0;
    RoundOfInteger(9600);
    RoundOfInteger(12000);
    RoundOfInteger(14400);
    RoundOfInteger(17500);
    RoundOfInteger(53500);
  }

  /** A card with a stored fuel rate of 9 and fuel spend 6000 saves 540 on
      fuel; with no stored food rate, food spend 5000 uses 0.7 * 5. */
  lemma StoredAndDefaultRateExample(fields: CardFields)
    ensures var card := Card(fields, [CategoryRef("fuel", "Fuel", Some(9.0))]);
      ServiceScore(card, Spends(0.0, 0.0, 6000.0, 5000.0), DefaultConstants).categories
        == [CategoryEntry("Fuel", 540, Some(6000.0)), CategoryEntry("Food", 17500, Some(5000.0))]
  {
    var card := Card(fields, [CategoryRef("fuel", "Fuel", Some(9.0))]);
    var sp := Spends(0.0, 0.0, 6000.0, 5000.0);
    assert UsableRate(card, Fuel) == Some(9.0);
    assert UsableRate(card, Food) == None;
    assert ServiceRaw(card, Fuel, sp, DefaultConstants) == 540.0;
    assert ServiceRaw(card, Food, sp, DefaultConstants) == 17500.0;
    RoundOfInteger(540);
    RoundOfInteger(17500);
    ServiceEntriesFollowSpends(card, sp, DefaultConstants);
  }

  /** The contributions of a card without stored rates for travel 15000 and
      fuel 5000: 12000 each, by the default multipliers 0.8 and 2.4. */
  lemma TieContributions(fields: CardFields)
    ensures ServiceContributions(Card(fields, []), Spends(15000.0, 0.0, 5000.0, 0.0), DefaultConstants)
      == [Contribution("Travel", 12000.0, Some(15000.0)), Contribution("Fuel", 12000.0, Some(5000.0))]
  {
    var card := Card(fields, []);
    var sp := Spends(15000.0, 0.0, 5000.0, 0.0);
    assert ServiceRaw(card, Travel, sp, DefaultConstants) == 12000.0;
    assert ServiceRaw(card, Fuel, sp, DefaultConstants) == 12000.0;
  }

  /** Equal travel and fuel savings at the maximum: travel, processed first,
      names the card. */
  lemma TieGoesToEarlierCategory(fields: CardFields)
    ensures ServiceScore(Card(fields, []), Spends(15000.0, 0.0, 5000.0, 0.0), DefaultConstants).bestFor
      == "Travel Spends & More"
  {
    TieContributions(fields);
    TieBestFor();
  }

  /** Two equal entries, travel first: best_for names travel. */
  lemma TieBestFor()
    ensures BestFor(Entries([Contribution("Travel", 12000.0, Some(15000.0)), Contribution("Fuel", 12000.0, Some(5000.0))]))
      == "Travel Spends & More"
  {
    var es := Entries([Contribution("Travel", 12000.0, Some(15000.0)), Contribution("Fuel", 12000.0, Some(5000.0))]);
    RoundOfInteger(12000);
    assert es[0].savings == 12000 && es[1].savings == 12000;
    BestForNamesFirstMax(es, 0);
  }

  // ---- getCardById ----

  datatype Feature = Feature(title: string, description: string)

  datatype Eligibility = Eligibility(minAge: int, maxAge: int, minIncome: int, minCibilScore: int)

  /** A card's stored rate as the detail lookup reads it: category name and
      percentage. */
  datatype NamedRate = NamedRate(categoryName: string, savingsPercentage: Option<real>)

  /** A card's details as read from the catalogue: `features` is None when
      absent, `eligibility` None when the card has no eligibility row. */
  datatype CardDetails = CardDetails(
    card: CardFields,
    features: Option<seq<Feature>>,
    eligibility: Option<Eligibility>,
    categorySavings: seq<NamedRate>)

  const DefaultFeatures: seq<Feature> := [
    Feature("4X reward points on dining", "Earn accelerated rewards on restaurant spends"),
    Feature("2X on online shopping", "Double rewards on e-commerce purchases"),
    Feature("Complimentary airport lounge", "4 domestic + 2 international per year")]

  const DefaultEligibility: Eligibility := Eligibility(21, 60, 500000, 750)

  /** The details lack both features and eligibility. */
  predicate NeedsFallback(d: CardDetails) {
    (d.features.None? || |d.features.value| == 0) && d.eligibility.None?
  }

  /** getCardById, with the stored details passed in (None: no such active
      card). A card with neither features nor eligibility gets the built-in
      three features and eligibility 21-60, income 500000, score 750; any
      other card, features empty but eligibility present included, is
      returned unchanged. Afterwards no card lacks both. */
  method GetCardById(found: Option<CardDetails>) returns (r: Option<CardDetails>)
    ensures found.None? ==> r.None?
    ensures found.Some? && NeedsFallback(found.value) ==>
      r == Some(found.value.(features := Some(DefaultFeatures), eligibility := Some(DefaultEligibility)))
    ensures found.Some? && !NeedsFallback(found.value) ==> r == found
    ensures r.Some? ==> !NeedsFallback(r.value)
  {
    if found.None? {
      return None;
    }
    var cardDetails := found.value;
    if (cardDetails.features.None? || |cardDetails.features.value| == 0) && cardDetails.eligibility.None? {
      cardDetails := cardDetails.(features := Some(DefaultFeatures));
      cardDetails := cardDetails.(eligibility := Some(DefaultEligibility));
    }
    return Some(cardDetails);
  }
}
