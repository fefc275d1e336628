/** The entities both recommendation engines share: the four spend categories,
    the spend input, the default-multiplier constants, the flattened card rows
    read from the catalogue, grouped cards, and the scored card returned to the
    client; plus the pieces of scoring the two engines compute the same way
    (looking up a card's category entry, the best_for label, and assembling a
    scored card from its per-category contributions). */
module Cards {
  import opened Common

  /** The four spend categories, in the order both engines process them. */
  datatype Slot = Travel | Shopping | Fuel | Food

  /** The category key stored in the catalogue. */
  function Key(s: Slot): string {
    match s
    case Travel => "travel"
    case Shopping => "shopping"
    case Fuel => "fuel"
    case Food => "food"
  }

  /** The place of a category in processing order: travel, shopping, fuel, food. */
  function Position(s: Slot): nat {
    match s
    case Travel => 0
    case Shopping => 1
    case Fuel => 2
    case Food => 3
  }

  /** The label shown for the category when nothing else names it. */
  function Label(s: Slot): string {
    match s
    case Travel => "Travel"
    case Shopping => "Shopping"
    case Fuel => "Fuel"
    case Food => "Food"
  }

  /** Spend per category, as handed to an engine. */
  datatype Spends = Spends(travel: real, shopping: real, fuel: real, food: real)

  function SpendOf(sp: Spends, s: Slot): real {
    match s
    case Travel => sp.travel
    case Shopping => sp.shopping
    case Fuel => sp.fuel
    case Food => sp.food
  }

  /** No spend is negative. */
  predicate NonNegative(sp: Spends) {
    sp.travel >= 0.0 && sp.shopping >= 0.0 && sp.fuel >= 0.0 && sp.food >= 0.0
  }

  /** The per-category constants (TRAVEL_CONSTANT and the rest). */
  datatype Constants = Constants(travel: real, shopping: real, fuel: real, food: real)

  /** The constants when the environment does not override them. */
  const DefaultConstants: Constants := Constants(2.0, 3.0, 4.0, 5.0)

  /** Reads one constant from the environment the way the service's constants
      module does: a value that does not parse as a number (None) falls back,
      any parsed number, 0 included, is kept. */
  function EnvConstant(parsed: Option<real>, fallback: real): (r: real)
    ensures r == fallback || parsed == Some(r)
    ensures parsed == Some(0.0) ==> r == 0.0
  {
    match parsed
    case None => fallback
    case Some(v) => v
  }

  /** The default fraction of spend returned when a card has no usable rate of
      its own: 0.4, 0.5, 0.6 and 0.7 times the category's constant. */
  function Multiplier(k: Constants, s: Slot): real {
    match s
    case Travel => 0.4 * k.travel
    case Shopping => 0.5 * k.shopping
    case Fuel => 0.6 * k.fuel
    case Food => 0.7 * k.food
  }

  /** A category's entry by the default formula alone, without a `spent`
      figure, as on the fallback card. */
  function FormulaEntry(sp: Spends, k: Constants, s: Slot): CategoryEntry {
    CategoryEntry(Label(s), Round(SpendOf(sp, s) * Multiplier(k, s)), None)
  }

  /** The given categories' formula entries, in order. */
  function FormulaEntries(slots: seq<Slot>, sp: Spends, k: Constants): (es: seq<CategoryEntry>)
    ensures |es| == |slots|
    ensures forall i :: 0 <= i < |slots| ==> es[i] == FormulaEntry(sp, k, slots[i])
  {
    seq(|slots|, i requires 0 <= i < |slots| => FormulaEntry(sp, k, slots[i]))
  }

  lemma FormulaEntriesAppend(a: seq<Slot>, b: seq<Slot>, sp: Spends, k: Constants)
    ensures FormulaEntries(a + b, sp, k) == FormulaEntries(a, sp, k) + FormulaEntries(b, sp, k)
  {
  }

  /** The card columns of a catalogue row. */
  datatype CardFields = CardFields(
    id: int,
    cardName: string,
    bankName: string,
    rating: real,
    reviewsCount: int,
    annualFees: real,
    joiningFees: real,
    rewardPoints: string)

  /** One flattened catalogue row: a card joined with at most one of its
      category-savings rows. A card without such rows has one row whose
      category columns are NULL (the empty string, and None). */
  datatype Row = Row(
    card: CardFields,
    categoryKey: string,
    categoryName: string,
    savingsPercentage: Option<real>)

  /** A card's own savings rate for one category. */
  datatype CategoryRef = CategoryRef(key: string, name: string, percentage: Option<real>)

  /** A card after grouping: its fields and its category rates in row order. */
  datatype Card = Card(fields: CardFields, categories: seq<CategoryRef>)

  /** One displayed category of a scored card; `spent` is absent on the
      fallback card. */
  datatype CategoryEntry = CategoryEntry(category: string, savings: int, spent: Option<real>)

  /** An engine's result for one card; `id` is absent on the fallback card. */
  datatype ScoredCard = ScoredCard(
    id: Option<int>,
    cardName: string,
    bankName: string,
    rating: real,
    reviewsCount: int,
    bestFor: string,
    totalSavings: int,
    annualFees: real,
    netSavings: int,
    categories: seq<CategoryEntry>)

  /** What one scored category adds to a card: its label, its unrounded
      savings, and the spend it was computed from. */
  datatype Contribution = Contribution(category: string, raw: real, spent: Option<real>)

  /** Index of the first category entry with the given key, or |refs| when
      there is none (Array.prototype.find). */
  function FindIndex(refs: seq<CategoryRef>, key: string): (i: nat)
    ensures i <= |refs|
    ensures i < |refs| ==> refs[i].key == key
    ensures forall j :: 0 <= j < i ==> refs[j].key != key
  {
    if refs == [] then 0
    else if refs[0].key == key then 0
    else 1 + FindIndex(refs[1..], key)
  }

  /** The first category entry with the given key, if any. */
  function Find(refs: seq<CategoryRef>, key: string): (r: Option<CategoryRef>)
    ensures r.Some? ==> r.value in refs && r.value.key == key
    ensures r.Some? ==> exists i :: 0 <= i < |refs| && refs[i] == r.value && forall j :: 0 <= j < i ==> refs[j].key != key
    ensures r.None? <==> forall j :: 0 <= j < |refs| ==> refs[j].key != key
  {
    var i := FindIndex(refs, key);
    if i < |refs| then Some(refs[i]) else None
  }

  /** Two category lists that agree on keys and rates (names may differ) find
      entries with the same rate. */
  lemma {:induction false} FindIgnoresNames(a: seq<CategoryRef>, b: seq<CategoryRef>, key: string)
    requires |a| == |b|
    requires forall i :: 0 <= i < |a| ==> a[i].key == b[i].key && a[i].percentage == b[i].percentage
    ensures Find(a, key).Some? <==> Find(b, key).Some?
    ensures Find(a, key).Some? ==> Find(a, key).value.percentage == Find(b, key).value.percentage
  {
    if a != [] && a[0].key != key {
      FindIgnoresNames(a[1..], b[1..], key);
    }
  }

  /** Entry i has the strictly greatest rounded savings seen so far and is
      never exceeded later: the entry a left-to-right "keep the strictly
      greater" reduce settles on. */
  ghost predicate IsFirstMax(entries: seq<CategoryEntry>, i: int) {
    && 0 <= i < |entries|
    && (forall j :: 0 <= j < |entries| ==> entries[j].savings <= entries[i].savings)
    && (forall j :: 0 <= j < i ==> entries[j].savings < entries[i].savings)
  }

  /** The reduce `(max, cat) => cat.savings > max.savings ? cat : max`,
      continued from position i with the current maximum at `best`. */
  function ReduceMax(entries: seq<CategoryEntry>, best: nat, i: nat): (r: nat)
    requires best <= i <= |entries| && best < |entries|
    requires forall j :: 0 <= j < i ==> entries[j].savings <= entries[best].savings
    requires forall j :: 0 <= j < best ==> entries[j].savings < entries[best].savings
    ensures IsFirstMax(entries, r)
    decreases |entries| - i
  {
    if i == |entries| then best
    else ReduceMax(entries, if entries[i].savings > entries[best].savings then i else best, i + 1)
  }

  /** The reduce seeded with the first entry, as both engines write it. */
  function BestIndex(entries: seq<CategoryEntry>): (r: nat)
    requires |entries| > 0
    ensures IsFirstMax(entries, r)
  {
    ReduceMax(entries, 0, 0)
  }

  /** The best_for label: "<category> Spends", with " & More" when more than
      one category was scored, or "General Spends" when none was. */
  function BestFor(entries: seq<CategoryEntry>): string {
    var best := if |entries| > 0 then entries[BestIndex(entries)].category else "General";
    best + " Spends" + (if |entries| > 1 then " & More" else "")
  }

  /** best_for names the first entry with the strictly greatest rounded savings
      (so a tie goes to the category processed first), says " & More" exactly
      when there are two entries or more, and is "General Spends" with none. */
  lemma BestForNamesFirstMax(entries: seq<CategoryEntry>, i: int)
    requires IsFirstMax(entries, i)
    ensures BestFor(entries) == entries[i].category + " Spends" + (if |entries| > 1 then " & More" else "")
  {
  }

  lemma BestForNoEntries()
    ensures BestFor([]) == "General Spends"
  {
  }

  /** Sum of the unrounded savings, accumulated left to right as the running
      total `cardTotalSavings += savings` does. */
  function RawSum(cs: seq<Contribution>): real {
    if cs == [] then 0.0 else RawSum(cs[..|cs| - 1]) + cs[|cs| - 1].raw
  }

  /** The displayed entries: each contribution with its savings rounded. */
  function Entries(cs: seq<Contribution>): (es: seq<CategoryEntry>)
    ensures |es| == |cs|
    ensures forall i :: 0 <= i < |cs| ==>
      es[i] == CategoryEntry(cs[i].category, Round(cs[i].raw), cs[i].spent)
  {
    if cs == [] then [] else Entries(cs[..|cs| - 1]) + [CategoryEntry(cs[|cs| - 1].category, Round(cs[|cs| - 1].raw), cs[|cs| - 1].spent)]
  }

  lemma {:induction false} RawSumAppend(a: seq<Contribution>, b: seq<Contribution>)
    ensures RawSum(a + b) == RawSum(a) + RawSum(b)
    decreases |b|
  {
    if b == [] {
      assert a + b == a;
    } else {
      assert (a + b)[..|a + b| - 1] == a + b[..|b| - 1];
      RawSumAppend(a, b[..|b| - 1]);
    }
  }

  lemma EntriesAppend(a: seq<Contribution>, b: seq<Contribution>)
    ensures Entries(a + b) == Entries(a) + Entries(b)
  {
    assert forall i :: 0 <= i < |a + b| ==> (a + b)[i] == if i < |a| then a[i] else b[i - |a|];
  }

  /** A scored card for a catalogue card, from its contributions: the total
      and the net are rounded once from the unrounded sum. */
  function Finish(card: CardFields, cs: seq<Contribution>): ScoredCard {
    var entries := Entries(cs);
    ScoredCard(
      Some(card.id), card.cardName, card.bankName, card.rating, card.reviewsCount,
      BestFor(entries),
      Round(RawSum(cs)),
      card.annualFees,
      Round(RawSum(cs) - card.annualFees),
      entries)
  }

  /** The record a per-card callback builds after its four category calls,
      from the running total and entry list they leave, is Finish of the four
      calls' contributions. */
  lemma FinishOfFour(card: CardFields, a: seq<Contribution>, b: seq<Contribution>, c: seq<Contribution>,
                     d: seq<Contribution>, total: real, entries: seq<CategoryEntry>)
    requires total == 0.0 + RawSum(a) + RawSum(b) + RawSum(c) + RawSum(d)
    requires entries == [] + Entries(a) + Entries(b) + Entries(c) + Entries(d)
    ensures Finish(card, a + b + c + d) == ScoredCard(
      Some(card.id), card.cardName, card.bankName, card.rating, card.reviewsCount,
      BestFor(entries), Round(total), card.annualFees, Round(total - card.annualFees), entries)
  {
    RawSumAppend(a, b);
    RawSumAppend(a + b, c);
    RawSumAppend(a + b + c, d);
    EntriesAppend(a, b);
    EntriesAppend(a + b, c);
    EntriesAppend(a + b + c, d);
    assert [] + Entries(a) == Entries(a);
  }

  /** Sum of the displayed, already rounded savings. */
  function DisplayedSum(es: seq<CategoryEntry>): int {
    if es == [] then 0 else DisplayedSum(es[..|es| - 1]) + es[|es| - 1].savings
  }

  /** Rounding each category moves the sum by at most half a unit per
      category: strictly less below, since Math.round rounds halves up. */
  lemma {:induction false} DisplayedSumNearRawSum(cs: seq<Contribution>)
    ensures RawSum(cs) - (|cs| as real) / 2.0 <= DisplayedSum(Entries(cs)) as real
    ensures |cs| > 0 ==> RawSum(cs) - (|cs| as real) / 2.0 < DisplayedSum(Entries(cs)) as real
    ensures DisplayedSum(Entries(cs)) as real <= RawSum(cs) + (|cs| as real) / 2.0
  {
    if cs != [] {
      var p := cs[..|cs| - 1];
      var last := cs[|cs| - 1];
      DisplayedSumNearRawSum(p);
      var es := Entries(cs);
      assert es[..|es| - 1] == Entries(p);
      assert DisplayedSum(es) == DisplayedSum(Entries(p)) + Round(last.raw);
      assert last.raw - 0.5 < Round(last.raw) as real <= last.raw + 0.5;
      assert RawSum(cs) == RawSum(p) + last.raw;
      assert (|cs| as real) / 2.0 == (|p| as real) / 2.0 + 0.5;
    }
  }

  /** The total is rounded from the unrounded sum, so it can differ from the
      sum of the displayed category savings, but by at most n / 2 for n
      scored categories: |2 * (total - displayed)| <= n. */
  lemma TotalNearDisplayedSum(card: CardFields, cs: seq<Contribution>)
    ensures var t := Finish(card, cs).totalSavings;
      var d := DisplayedSum(Finish(card, cs).categories);
      -|cs| <= 2 * (t - d) <= |cs|
  {
    DisplayedSumNearRawSum(cs);
    var t := Finish(card, cs).totalSavings;
    var d := DisplayedSum(Finish(card, cs).categories);
    var n := |cs|;
    if n == 0 {
      RoundOfInteger(0);
    } else {
      assert (2 * (t - d)) as real < (n + 1) as real;
      assert (2 * (d - t)) as real < (n + 1) as real;
    }
  }

  /** Two categories of 0.5 each display 1 + 1 but total Math.round(1) = 1:
      the total is not the sum of the displayed figures. */
  lemma TotalIsNotSumOfDisplayed(card: CardFields)
    ensures var cs := [Contribution("Travel", 0.5, Some(1.0)), Contribution("Food", 0.5, Some(1.0))];
      Finish(card, cs).totalSavings == 1 && DisplayedSum(Finish(card, cs).categories) == 2
  {
    var cs := [Contribution("Travel", 0.5, Some(1.0)), Contribution("Food", 0.5, Some(1.0))];
    assert cs[..1] == [cs[0]];
    assert RawSum(cs) == 1.0;
    var es := Entries(cs);
    assert es[..1] == [es[0]];
    assert es[0].savings == 1 && es[1].savings == 1;
    assert DisplayedSum(es[..1]) == 1;
  }

  /** With a whole-number annual fee, the net savings is the rounded total
      minus the fee. */
  lemma NetIsTotalMinusFee(card: CardFields, cs: seq<Contribution>, fee: int)
    requires card.annualFees == fee as real
    ensures Finish(card, cs).netSavings == Finish(card, cs).totalSavings - fee
  {
    RoundShift(RawSum(cs), fee);
  }
}
