/** Grouping the flattened catalogue rows into cards, as both engines do
    before scoring: one card per distinct id, in order of first appearance,
    its columns taken from its first row, and one category entry per row that
    carries a category key. */
module Grouping {
  import opened Common
  import opened Cards

  /** The category entry a row adds to its card. The service names the entry
      after its key when the row has no category name (`keyAsName`); the
      legacy route keeps the name as read. */
  function RefOf(r: Row, keyAsName: bool): CategoryRef {
    CategoryRef(
      r.categoryKey,
      if keyAsName && !TruthyText(r.categoryName) then r.categoryKey else r.categoryName,
      r.savingsPercentage)
  }

  /** The card ids occurring in the rows. */
  function RowIds(rows: seq<Row>): set<int> {
    set r | r in rows :: r.card.id
  }

  lemma RowIdsSnoc(rows: seq<Row>, r: Row)
    ensures RowIds(rows + [r]) == RowIds(rows) + {r.card.id}
  {
    assert forall x :: x in rows + [r] <==> x in rows || x == r;
  }

  /** The distinct card ids, in order of first appearance. */
  function Ids(rows: seq<Row>): (ids: seq<int>)
    ensures forall i, j :: 0 <= i < j < |ids| ==> ids[i] != ids[j]
    ensures forall id :: id in ids <==> id in RowIds(rows)
  {
    if rows == [] then []
    else
      var prefix := rows[..|rows| - 1];
      var id := rows[|rows| - 1].card.id;
      assert rows == prefix + [rows[|rows| - 1]];
      RowIdsSnoc(prefix, rows[|rows| - 1]);
      var p := Ids(prefix);
      if id in p then p else p + [id]
  }

  lemma IdsSnoc(rows: seq<Row>, r: Row)
    ensures Ids(rows + [r]) == if r.card.id in Ids(rows) then Ids(rows) else Ids(rows) + [r.card.id]
  {
    assert (rows + [r])[..|rows|] == rows;
  }

  /** The position of the first row with the given id. */
  function FirstIndex(rows: seq<Row>, id: int): (k: nat)
    requires id in RowIds(rows)
    ensures k < |rows| && rows[k].card.id == id
    ensures forall j :: 0 <= j < k ==> rows[j].card.id != id
  {
    var prefix := rows[..|rows| - 1];
    assert rows == prefix + [rows[|rows| - 1]];
    RowIdsSnoc(prefix, rows[|rows| - 1]);
    if id in RowIds(prefix) then FirstIndex(prefix, id)
    else
      assert forall j :: 0 <= j < |prefix| ==> prefix[j] in prefix;
      |rows| - 1
  }

  /** The category entries of the card with the given id: one per row with
      that id and a non-empty category key, in row order. */
  function EntriesFor(rows: seq<Row>, id: int, keyAsName: bool): seq<CategoryRef> {
    if rows == [] then []
    else
      var r := rows[|rows| - 1];
      EntriesFor(rows[..|rows| - 1], id, keyAsName)
        + (if r.card.id == id && TruthyText(r.categoryKey) then [RefOf(r, keyAsName)] else [])
  }

  /** The card the rows describe for one id. */
  function CardFor(rows: seq<Row>, id: int, keyAsName: bool): Card
    requires id in RowIds(rows)
  {
    Card(rows[FirstIndex(rows, id)].card, EntriesFor(rows, id, keyAsName))
  }

  /** The grouped cards, in order of first appearance of their ids. */
  function Group(rows: seq<Row>, keyAsName: bool): seq<Card> {
    var ids := Ids(rows);
    seq(|ids|, k requires 0 <= k < |ids| => CardFor(rows, ids[k], keyAsName))
  }

  /** Grouping yields exactly one card per distinct id of the rows. */
  lemma GroupOnePerId(rows: seq<Row>, keyAsName: bool)
    ensures var cards := Group(rows, keyAsName);
      && (forall k1, k2 :: 0 <= k1 < k2 < |cards| ==> cards[k1].fields.id != cards[k2].fields.id)
      && (set k | 0 <= k < |cards| :: cards[k].fields.id) == RowIds(rows)
  {
    var cards := Group(rows, keyAsName);
    var ids := Ids(rows);
    assert forall k :: 0 <= k < |cards| ==> cards[k].fields.id == ids[k];
    forall id | id in RowIds(rows)
      ensures id in (set k | 0 <= k < |cards| :: cards[k].fields.id)
    {
      var k :| 0 <= k < |ids| && ids[k] == id;
      assert cards[k].fields.id == id;
    }
  }

  /** Each card's columns are those of the first row carrying its id, and its
      category entries are the rows with its id and a category key, in row
      order. */
  lemma GroupedCardContents(rows: seq<Row>, keyAsName: bool, k: int)
    requires 0 <= k < |Group(rows, keyAsName)|
    ensures var c := Group(rows, keyAsName)[k];
      && c.fields.id in RowIds(rows)
      && c.fields == rows[FirstIndex(rows, c.fields.id)].card
      && c.categories == EntriesFor(rows, c.fields.id, keyAsName)
  {
  }

  /** A row without a category key adds no entry; every row with one adds an
      entry to its own card only. */
  lemma EntriesForSnoc(rows: seq<Row>, r: Row, id: int, keyAsName: bool)
    ensures EntriesFor(rows + [r], id, keyAsName)
      == EntriesFor(rows, id, keyAsName) + (if r.card.id == id && TruthyText(r.categoryKey) then [RefOf(r, keyAsName)] else [])
  {
    assert (rows + [r])[..|rows|] == rows;
  }

  /** An id that no row carries has no entries. */
  lemma {:induction false} EntriesForAbsent(rows: seq<Row>, id: int, keyAsName: bool)
    requires id !in RowIds(rows)
    ensures EntriesFor(rows, id, keyAsName) == []
  {
    if rows != [] {
      var prefix := rows[..|rows| - 1];
      assert rows == prefix + [rows[|rows| - 1]];
      RowIdsSnoc(prefix, rows[|rows| - 1]);
      EntriesForAbsent(prefix, id, keyAsName);
    }
  }

  /** How one more row changes the card of an id: a card already present
      keeps its columns and gains the row's entry, if any; a new id gets the
      row's columns. */
  lemma CardForSnoc(rows: seq<Row>, r: Row, id: int, keyAsName: bool)
    requires id in RowIds(rows + [r])
    ensures var extra := if r.card.id == id && TruthyText(r.categoryKey) then [RefOf(r, keyAsName)] else [];
      && (id in RowIds(rows) ==>
            CardFor(rows + [r], id, keyAsName)
              == CardFor(rows, id, keyAsName).(categories := CardFor(rows, id, keyAsName).categories + extra))
      && (id !in RowIds(rows) ==> id == r.card.id && CardFor(rows + [r], id, keyAsName) == Card(r.card, extra))
  {
    RowIdsSnoc(rows, r);
    EntriesForSnoc(rows, r, id, keyAsName);
    assert (rows + [r])[..|rows|] == rows;
    if id !in RowIds(rows) {
      EntriesForAbsent(rows, id, keyAsName);
    }
  }

  /** The three facts the grouping loop keeps about its map and its key order. */
  ghost predicate GroupedSoFar(rows: seq<Row>, keyAsName: bool, cardMap: map<int, Card>, order: seq<int>) {
    && order == Ids(rows)
    && cardMap.Keys == RowIds(rows)
    && forall id :: id in cardMap ==> cardMap[id] == CardFor(rows, id, keyAsName)
  }

  /** One iteration of the grouping loop keeps GroupedSoFar. */
  lemma GroupStep(rows: seq<Row>, r: Row, keyAsName: bool, cardMap: map<int, Card>, order: seq<int>)
    requires GroupedSoFar(rows, keyAsName, cardMap, order)
    ensures var base := if r.card.id in cardMap then cardMap[r.card.id] else Card(r.card, []);
      var card := if TruthyText(r.categoryKey) then base.(categories := base.categories + [RefOf(r, keyAsName)]) else base;
      GroupedSoFar(rows + [r], keyAsName, cardMap[r.card.id := card],
        if r.card.id in cardMap then order else order + [r.card.id])
  {
    StepOrder(rows, r, cardMap, order);
    StepCards(rows, r, keyAsName, cardMap);
  }

  /** The insertion order after one row: its id is appended when new. */
  lemma StepOrder(rows: seq<Row>, r: Row, cardMap: map<int, Card>, order: seq<int>)
    requires order == Ids(rows) && cardMap.Keys == RowIds(rows)
    ensures (if r.card.id in cardMap then order else order + [r.card.id]) == Ids(rows + [r])
  {
    IdsSnoc(rows, r);
  }

  /** The card map after one row: the row's card is created or extended, and
      every card is again the grouping of its id. */
  lemma StepCards(rows: seq<Row>, r: Row, keyAsName: bool, cardMap: map<int, Card>)
    requires cardMap.Keys == RowIds(rows)
    requires forall id :: id in cardMap ==> cardMap[id] == CardFor(rows, id, keyAsName)
    ensures var base := if r.card.id in cardMap then cardMap[r.card.id] else Card(r.card, []);
      var card := if TruthyText(r.categoryKey) then base.(categories := base.categories + [RefOf(r, keyAsName)]) else base;
      var m := cardMap[r.card.id := card];
      && m.Keys == RowIds(rows + [r])
      && forall id :: id in m ==> m[id] == CardFor(rows + [r], id, keyAsName)
  {
    RowIdsSnoc(rows, r);
    var base := if r.card.id in cardMap then cardMap[r.card.id] else Card(r.card, []);
    var card := if TruthyText(r.categoryKey) then base.(categories := base.categories + [RefOf(r, keyAsName)]) else base;
    var m := cardMap[r.card.id := card];
    forall id | id in m
      ensures m[id] == CardFor(rows + [r], id, keyAsName)
    {
      CardForSnoc(rows, r, id, keyAsName);
    }
  }

  /** The rows as the grouping loop reads them back: the Map's values in
      insertion order. */
  lemma GroupFromMap(rows: seq<Row>, keyAsName: bool, cardMap: map<int, Card>, order: seq<int>)
    requires GroupedSoFar(rows, keyAsName, cardMap, order)
    ensures forall k :: 0 <= k < |order| ==> order[k] in cardMap
    ensures seq(|order|, k requires 0 <= k < |order| => cardMap[order[k]]) == Group(rows, keyAsName)
  {
  }

  /** The body of the `rows.forEach` callback: add the row's card to the map
      if its id is new, then append the row's category entry when it has a
      category key. The card object that the source creates, stores and then
      extends in place is built here as a value and stored once. */
  method AddRow(cardMap: map<int, Card>, order: seq<int>, row: Row, keyAsName: bool)
    returns (cardMap': map<int, Card>, order': seq<int>)
    ensures var base := if row.card.id in cardMap then cardMap[row.card.id] else Card(row.card, []);
      && cardMap' == cardMap[row.card.id := if TruthyText(row.categoryKey) then base.(categories := base.categories + [RefOf(row, keyAsName)]) else base]
      && order' == if row.card.id in cardMap then order else order + [row.card.id]
  {
    var cardData: Card;
    order' := order;
    if row.card.id !in cardMap {
      cardData := Card(row.card, []);
      order' := order + [row.card.id];
    } else {
      cardData := cardMap[row.card.id];
    }
    if TruthyText(row.categoryKey) {
      cardData := cardData.(categories := cardData.categories + [RefOf(row, keyAsName)]);
    }
    cardMap' := cardMap[row.card.id := cardData];
  }

  /** The grouping loop over the rows. The JavaScript Map is a map from id to
      card plus the order in which ids were first inserted, which is the order
      its values are read back in. */
  method GroupRows(rows: seq<Row>, keyAsName: bool) returns (cards: seq<Card>)
    ensures cards == Group(rows, keyAsName)
  {
    var cardMap: map<int, Card> := map[];
    var order: seq<int> := [];
    var i := 0;
    while i < |rows|
      invariant 0 <= i <= |rows|
      invariant GroupedSoFar(rows[..i], keyAsName, cardMap, order)
    {
      GroupStep(rows[..i], rows[i], keyAsName, cardMap, order);
      cardMap, order := AddRow(cardMap, order, rows[i], keyAsName);
      TakeSnoc(rows, i);
      i := i + 1;
    }
    assert rows[..i] == rows;
    GroupFromMap(rows, keyAsName, cardMap, order);
    cards := seq(|order|, k requires 0 <= k < |order| => cardMap[order[k]]);
  }

  /** The two engines' groupings differ only in entry names: the service's
      entry is named after its key exactly where the legacy entry's name is
      empty. Every entry has a non-empty key. */
  lemma {:induction false} EntriesForRenames(rows: seq<Row>, id: int)
    ensures var t := EntriesFor(rows, id, true);
      var f := EntriesFor(rows, id, false);
      && |t| == |f|
      && forall j :: 0 <= j < |f| ==>
          && TruthyText(f[j].key)
          && t[j] == f[j].(name := if TruthyText(f[j].name) then f[j].name else f[j].key)
  {
    if rows != [] {
      EntriesForRenames(rows[..|rows| - 1], id);
    }
  }

  /** Grouping with and without the key fallback yields the same cards with
      the same columns, in the same order; only entry names can differ. */
  lemma GroupRenames(rows: seq<Row>, k: int)
    requires 0 <= k < |Group(rows, false)|
    ensures |Group(rows, true)| == |Group(rows, false)|
    ensures var t := Group(rows, true)[k];
      var f := Group(rows, false)[k];
      && t.fields == f.fields
      && |t.categories| == |f.categories|
      && forall j :: 0 <= j < |f.categories| ==>
          && TruthyText(f.categories[j].key)
          && t.categories[j] == f.categories[j].(name := if TruthyText(f.categories[j].name) then f.categories[j].name else f.categories[j].key)
  {
    EntriesForRenames(rows, Ids(rows)[k]);
  }

  /** No row id exceeds a bound that every row respects. */
  lemma RowIdsBound(rows: seq<Row>, bound: int)
    requires forall j :: 0 <= j < |rows| ==> rows[j].card.id <= bound
    ensures forall id :: id in RowIds(rows) ==> id <= bound
  {
    assert forall x :: x in rows ==> x.card.id <= bound;
  }

  /** Rows ordered by id, as the catalogue query returns them, give their ids
      in strictly increasing order, so the order of first appearance is also
      ascending id order. */
  lemma {:induction false} IdsAscending(rows: seq<Row>)
    requires forall i, j :: 0 <= i < j < |rows| ==> rows[i].card.id <= rows[j].card.id
    ensures var ids := Ids(rows);
      forall i, j :: 0 <= i < j < |ids| ==> ids[i] < ids[j]
  {
    if rows != [] {
      var prefix := rows[..|rows| - 1];
      var r := rows[|rows| - 1];
      assert rows == prefix + [r];
      IdsAscending(prefix);
      RowIdsSnoc(prefix, r);
      IdsSnoc(prefix, r);
      RowIdsBound(prefix, r.card.id);
      var p := Ids(prefix);
      forall i | 0 <= i < |p|
        ensures p[i] <= r.card.id
      {
        assert p[i] in p;
      }
      AscendingSnoc(p, r.card.id, Ids(rows));
    }
  }

  /** Appending a value no smaller than any element, unless it is already
      there, keeps a strictly increasing sequence strictly increasing. */
  lemma AscendingSnoc(p: seq<int>, x: int, q: seq<int>)
    requires forall i, j :: 0 <= i < j < |p| ==> p[i] < p[j]
    requires forall i :: 0 <= i < |p| ==> p[i] <= x
    requires q == (if x in p then p else p + [x])
    ensures forall i, j :: 0 <= i < j < |q| ==> q[i] < q[j]
  {
  }
}
