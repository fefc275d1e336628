/** How the recommendation service and the older route of
    backend/routes/calculate.js relate: conditions under which their results
    coincide, and inputs on which they part. */
module EngineAgreement {
  import opened Common
  import opened Cards
  import opened Grouping
  import opened CardService
  import opened LegacyCalculate

  // ---- the fallback cards ----

  /** The route's mock card has the same total and net as the service's
      fallback card for every input, and is the very same card exactly when no
      spend is negative (a negative spend gets an entry from the service only). */
  lemma MockIsDefaultCard(sp: Spends, k: Constants)
    ensures MockCard(sp, k).totalSavings == BuildDefaultCard(sp, k).totalSavings
    ensures MockCard(sp, k).netSavings == BuildDefaultCard(sp, k).netSavings
    ensures MockCard(sp, k) == BuildDefaultCard(sp, k) <==> NonNegative(sp)
  {
    MockTotalIsDefaultTotal(sp, k);
    if NonNegative(sp) {
      MockEntriesAreDefaultEntries(sp, k);
    } else {
      MockEntriesFollowSpends(sp, k);
      DefaultCardEntriesFollowSpends(sp, k);
      FewerScoredSlots(sp);
    }
  }

  /** A category whose spend is 0 adds 0 to the formula total too. */
  lemma MockTotalIsDefaultTotal(sp: Spends, k: Constants)
    ensures FormulaTotal(sp, k) == DefaultRaw(sp, k, Travel) + DefaultRaw(sp, k, Shopping)
      + DefaultRaw(sp, k, Fuel) + DefaultRaw(sp, k, Food)
  {
    assert SpendOf(sp, Travel) * Multiplier(k, Travel) == DefaultRaw(sp, k, Travel);
    assert SpendOf(sp, Shopping) * Multiplier(k, Shopping) == DefaultRaw(sp, k, Shopping);
    assert SpendOf(sp, Fuel) * Multiplier(k, Fuel) == DefaultRaw(sp, k, Fuel);
    assert SpendOf(sp, Food) * Multiplier(k, Food) == DefaultRaw(sp, k, Food);
  }

  lemma MockEntriesAreDefaultEntries(sp: Spends, k: Constants)
    requires NonNegative(sp)
    ensures MockCard(sp, k).categories == BuildDefaultCard(sp, k).categories
  {
    assert MockEntry(sp, k, Travel) == DefaultEntry(sp, k, Travel);
    assert MockEntry(sp, k, Shopping) == DefaultEntry(sp, k, Shopping);
    assert MockEntry(sp, k, Fuel) == DefaultEntry(sp, k, Fuel);
    assert MockEntry(sp, k, Food) == DefaultEntry(sp, k, Food);
  }

  /** A negative spend is scored by the service and not by the route; every
      category the route scores, the service scores too. */
  lemma FewerScoredSlots(sp: Spends)
    requires !NonNegative(sp)
    ensures forall s :: SpendOf(sp, s) < 0.0 ==> s in ServiceSlots(sp) && s !in LegacySlots(sp)
    ensures forall s :: s in LegacySlots(sp) ==> s in ServiceSlots(sp)
    ensures |LegacySlots(sp)| < |ServiceSlots(sp)|
  {
    LegacySlotsInOrder(sp);
  }

  // ---- catalogue cards ----

  /** A stored rate on which the engines agree: a usable percentage (not NULL,
      not 0), and a name that is empty or the label of its category. */
  predicate AgreeableRef(c: CategoryRef) {
    UsablePercentage(c) && NameFits(c)
  }

  /** The stored percentage is neither NULL nor 0. */
  predicate UsablePercentage(c: CategoryRef) {
    c.percentage.Some? && c.percentage.value != 0.0
  }

  /** The stored name is empty or the label of the entry's category. */
  predicate NameFits(c: CategoryRef) {
    forall s: Slot :: c.key == Key(s) ==> c.name == "" || c.name == Label(s)
  }

  /** A catalogue row whose category entry, if any, is agreeable. */
  predicate AgreeableRow(r: Row) {
    TruthyText(r.categoryKey) ==> AgreeableRef(RefOf(r, false))
  }

  lemma {:induction false} EntriesForAgreeable(rows: seq<Row>, id: int)
    requires forall r :: r in rows ==> AgreeableRow(r)
    ensures forall c :: c in EntriesFor(rows, id, false) ==> AgreeableRef(c)
  {
    if rows != [] {
      var prefix := rows[..|rows| - 1];
      assert forall r :: r in prefix ==> r in rows;
      EntriesForAgreeable(prefix, id);
      assert rows[|rows| - 1] in rows;
    }
  }

  /** The service's card `t` is the route's card `f` with empty names
      replaced by keys. */
  ghost predicate Renamed(t: Card, f: Card) {
    && t.fields == f.fields
    && |t.categories| == |f.categories|
    && forall j :: 0 <= j < |f.categories| ==>
        t.categories[j] == f.categories[j].(name := if TruthyText(f.categories[j].name) then f.categories[j].name else f.categories[j].key)
  }

  /** Same keys and rates, position by position. */
  ghost predicate SameRates(t: Card, f: Card) {
    && |t.categories| == |f.categories|
    && forall j :: 0 <= j < |f.categories| ==>
        t.categories[j].key == f.categories[j].key && t.categories[j].percentage == f.categories[j].percentage
  }

  lemma RenamedHasSameRates(t: Card, f: Card)
    requires Renamed(t, f)
    ensures SameRates(t, f)
  {
    forall j | 0 <= j < |f.categories|
      ensures t.categories[j].key == f.categories[j].key && t.categories[j].percentage == f.categories[j].percentage
    {
    }
  }

  /** With agreeable rates, both engines compute the same unrounded savings. */
  lemma RawAgrees(t: Card, f: Card, s: Slot, sp: Spends, k: Constants)
    requires SameRates(t, f)
    requires forall c :: c in f.categories ==> UsablePercentage(c)
    ensures ServiceRaw(t, s, sp, k) == LegacyRaw(f, s, sp, k)
  {
    FindIgnoresNames(t.categories, f.categories, Key(s));
    var found := Find(f.categories, Key(s));
    if found.Some? {
      var c := found.value;
      assert c in f.categories;
      assert UsablePercentage(c);
      assert Find(t.categories, Key(s)).value.percentage == c.percentage;
      assert UsableRate(t, s) == c.percentage;
      var p := c.percentage.value / 100.0;
      assert ServiceRaw(t, s, sp, k) == SpendOf(sp, s) * p;
      assert LegacyRaw(f, s, sp, k) == SpendOf(sp, s) * p;
    } else {
      assert UsableRate(t, s).None?;
    }
  }

  /** With agreeable names, the route labels every category by its own label. */
  lemma LabelAgrees(f: Card, s: Slot)
    requires forall c :: c in f.categories ==> NameFits(c)
    ensures LegacyLabel(f, s) == Label(s)
  {
    var found := Find(f.categories, Key(s));
    if found.Some? {
      assert NameFits(found.value);
    }
  }

  /** One category: with a non-negative spend and agreeable rates, both
      engines add the same contribution. */
  lemma SlotAgrees(t: Card, f: Card, s: Slot, sp: Spends, k: Constants)
    requires SameRates(t, f)
    requires forall c :: c in f.categories ==> AgreeableRef(c)
    requires SpendOf(sp, s) >= 0.0
    ensures ServiceContribution(t, s, sp, k) == LegacyContribution(f, s, sp, k)
  {
    assert forall c :: c in f.categories ==> UsablePercentage(c) && NameFits(c);
    RawAgrees(t, f, s, sp, k);
    LabelAgrees(f, s);
  }

  /** One card: with non-negative spends and agreeable rates, both engines
      score it identically. */
  lemma CardScoresAgree(t: Card, f: Card, sp: Spends, k: Constants)
    requires t.fields == f.fields && SameRates(t, f)
    requires forall c :: c in f.categories ==> AgreeableRef(c)
    requires NonNegative(sp)
    ensures ServiceScore(t, sp, k) == LegacyScore(f, sp, k)
  {
    forall s
      ensures ServiceContribution(t, s, sp, k) == LegacyContribution(f, s, sp, k)
    {
      SlotAgrees(t, f, s, sp, k);
    }
    ContributionsAgree(t, f, sp, k);
  }

  lemma ContributionsAgree(t: Card, f: Card, sp: Spends, k: Constants)
    requires forall s :: ServiceContribution(t, s, sp, k) == LegacyContribution(f, s, sp, k)
    ensures ServiceContributions(t, sp, k) == LegacyContributions(f, sp, k)
  {
    assert ServiceContribution(t, Travel, sp, k) == LegacyContribution(f, Travel, sp, k);
    assert ServiceContribution(t, Shopping, sp, k) == LegacyContribution(f, Shopping, sp, k);
    assert ServiceContribution(t, Fuel, sp, k) == LegacyContribution(f, Fuel, sp, k);
    assert ServiceContribution(t, Food, sp, k) == LegacyContribution(f, Food, sp, k);
  }

  /** The whole catalogue: with non-negative spends and only agreeable rows,
      the service and the route score the same cards, card for card. Both
      then return these scores sorted by net savings, so their responses are
      permutations of each other that differ at most in the order of equal
      net savings. */
  lemma EnginesAgree(rows: seq<Row>, sp: Spends, k: Constants)
    requires NonNegative(sp)
    requires forall r :: r in rows ==> AgreeableRow(r)
    ensures ServiceScores(Group(rows, true), sp, k) == LegacyScores(Group(rows, false), sp, k)
  {
    var gt := Group(rows, true);
    var gf := Group(rows, false);
    forall i | 0 <= i < |gf|
      ensures ServiceScore(gt[i], sp, k) == LegacyScore(gf[i], sp, k)
    {
      GroupRenames(rows, i);
      GroupedCardContents(rows, false, i);
      EntriesForAgreeable(rows, gf[i].fields.id);
      RenamedHasSameRates(gt[i], gf[i]);
      CardScoresAgree(gt[i], gf[i], sp, k);
    }
  }

  /** A stored travel rate with a NULL percentage: the service falls back to
      the default formula (1000 * 0.4 * 2 = 800), the route saves nothing.
      The catalogue schema declares `savings_percentage` NOT NULL
      (backend/scripts/createDatabase.js:130), so no catalogue row of that
      schema has this shape; the lemma states what each engine's code does
      with one. */
  lemma NullRateDisagreement(fields: CardFields)
    ensures var sp := Spends(1000.0, 0.0, 0.0, 0.0);
      var r := [CategoryRef("travel", "Travel", None)];
      && ServiceScore(Card(fields, r), sp, DefaultConstants).totalSavings == 800
      && LegacyScore(Card(fields, r), sp, DefaultConstants).totalSavings == 0
  {
    var sp := Spends(1000.0, 0.0, 0.0, 0.0);
    var card := Card(fields, [CategoryRef("travel", "Travel", None)]);
    assert ServiceRaw(card, Travel, sp, DefaultConstants) == 800.0;
    assert LegacyRaw(card, Travel, sp, DefaultConstants) == 0.0;
    ServiceContributionsSplit(card, sp, DefaultConstants);
    LegacyContributionsSplit(card, sp, DefaultConstants);
    RoundOfInteger(800);
    RoundOfInteger(0);
  }
}
