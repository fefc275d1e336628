/** The recommendation controller's handler (backend/src/controllers/
    RecommendationController.js), which its router runs after the request
    validator: it builds the four spends from the
    validated body, `body.x || 0` for each, and responds with the service's
    recommendations unchanged. */
module RecommendationController {
  import opened Common
  import opened JsonValues
  import opened Cards
  import opened Grouping
  import opened Ranking
  import opened CardService
  import opened CalculateValidator

  /** Every present, truthy spend field holds a number, as a body the
      validator accepted does; `x || 0` then always yields a number. */
  predicate NumericSpends(body: map<string, Json>) {
    forall key :: key in SpendKeySet && key in body && TruthyJson(body[key]) ==> body[key].JNum?
  }

  /** `body[key] || 0`. */
  function SpendOrZero(body: map<string, Json>, key: string): (r: real)
    requires key in SpendKeySet && NumericSpends(body)
    ensures r != 0.0 ==> key in body && body[key] == JNum(r)
    ensures key in body && body[key].JNum? ==> r == body[key].n
  {
    if key in body && TruthyJson(body[key]) then body[key].n else 0.0
  }

  /** The spends object: exactly the four fields, each the body's value when
      truthy and 0 when absent, null or otherwise falsy. */
  function Normalise(body: map<string, Json>): Spends
    requires NumericSpends(body)
  {
    Spends(SpendOrZero(body, "travel"), SpendOrZero(body, "shopping"), SpendOrZero(body, "fuel"), SpendOrZero(body, "food"))
  }

  /** Each spend is the body's number when truthy; an absent field, null,
      false, "" and 0 all become 0. */
  lemma NormaliseFields(body: map<string, Json>, s: Slot)
    requires NumericSpends(body)
    ensures Key(s) !in body || !TruthyJson(body[Key(s)]) ==> SpendOf(Normalise(body), s) == 0.0
    ensures Key(s) in body && TruthyJson(body[Key(s)]) ==> SpendOf(Normalise(body), s) == body[Key(s)].n
  {
  }

  /** Keys other than the four never reach the service. */
  lemma NormaliseIgnoresOtherKeys(body: map<string, Json>, extra: map<string, Json>)
    requires NumericSpends(body)
    requires forall key :: key in extra ==> key !in SpendKeySet
    ensures NumericSpends(body + extra)
    ensures Normalise(body + extra) == Normalise(body)
  {
  }

  /** A body the validator accepts meets the handler's precondition, its
      stripped value normalises to the same spends, and no spend is
      negative. */
  lemma AcceptedBodyNormalises(body: map<string, Json>)
    requires ValidateCalculate(body).Ok?
    ensures NumericSpends(body) && NumericSpends(ValidateCalculate(body).value)
    ensures Normalise(ValidateCalculate(body).value) == Normalise(body)
    ensures NonNegative(Normalise(body))
  {
    var v := ValidateCalculate(body).value;
    assert forall key :: key in SpendKeySet ==> OptionalField(body, key, NonNegativeNumber);
    assert OptionalField(body, "travel", NonNegativeNumber);
    assert OptionalField(body, "shopping", NonNegativeNumber);
    assert OptionalField(body, "fuel", NonNegativeNumber);
    assert OptionalField(body, "food", NonNegativeNumber);
  }

  /** The handler, with the catalogue rows and the constants passed in: the
      response is the service's result for the normalised spends. */
  method CalculateRecommendations(body: map<string, Json>, rows: Option<seq<Row>>, k: Constants)
    returns (results: seq<ScoredCard>)
    requires NumericSpends(body)
    ensures (rows.None? || |rows.value| == 0) ==> results == [BuildDefaultCard(Normalise(body), k)]
    ensures rows.Some? && |rows.value| > 0 ==>
      && SortedByNet(results)
      && multiset(results) == multiset(ServiceScores(Group(rows.value, true), Normalise(body), k))
  {
    var spends := Normalise(body);
    results := GetCardRecommendations(rows, spends, k);
  }
}
