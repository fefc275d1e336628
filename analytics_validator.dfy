/** The rules of the card-apply analytics event payload, with the defaults
    the schema fills in and the unknown keys it strips. */
module AnalyticsValidator {
  import opened Common
  import opened JsonValues
  import opened CalculateValidator

  const MaxNameLength: nat := 200

  /** Joi `number().integer().min(1)`, within the safe range. */
  predicate PositiveInteger(v: Json) {
    SafeNumber(v) && v.n == v.n.Floor as real && v.n >= 1.0
  }

  /** Joi `string().max(200)`: a string of 1 to 200 characters (Joi rejects
      the empty string by default). */
  predicate ShortName(v: Json) {
    v.JStr? && 0 < |v.s| <= MaxNameLength
  }

  /** `userSpends` when present: an object whose spend fields, where present,
      are numbers at least 0. */
  predicate SpendsObject(v: Json) {
    v.JObj? && forall key :: key in SpendKeySet ==> OptionalField(v.fields, key, NonNegativeNumber)
  }

  /** One entry of `savings.categories`: a non-empty `category` string and
      `savings` at least 0, both required. */
  predicate CategoryItem(v: Json) {
    && v.JObj?
    && "category" in v.fields && v.fields["category"].JStr? && v.fields["category"].s != ""
    && "savings" in v.fields && NonNegativeNumber(v.fields["savings"])
  }

  predicate CategoryList(v: Json) {
    v.JArr? && forall i :: 0 <= i < |v.items| ==> CategoryItem(v.items[i])
  }

  const SavingsKeySet: set<string> := {"totalSavings", "netSavings", "categories"}

  /** `savings` when present: totals at least 0 where present, and a valid
      category list where present. */
  predicate SavingsObject(v: Json) {
    && v.JObj?
    && OptionalField(v.fields, "totalSavings", NonNegativeNumber)
    && OptionalField(v.fields, "netSavings", NonNegativeNumber)
    && OptionalField(v.fields, "categories", CategoryList)
  }

  const PayloadKeySet: set<string> := {"cardId", "cardName", "bankName", "userSpends", "savings", "metadata"}

  /** The payload rules. */
  predicate AnalyticsValid(body: map<string, Json>) {
    && "cardId" in body && PositiveInteger(body["cardId"])
    && "cardName" in body && ShortName(body["cardName"])
    && OptionalField(body, "bankName", ShortName)
    && OptionalField(body, "userSpends", SpendsObject)
    && OptionalField(body, "savings", SavingsObject)
    && OptionalField(body, "metadata", (v: Json) => v.JObj?)
  }

  /** A category item with its unknown keys stripped. */
  function StripItem(v: Json): Json {
    if v.JObj? then JObj(Restrict(v.fields, {"category", "savings"})) else v
  }

  /** `savings` normalised: unknown keys stripped, `categories` defaulting to
      []. An absent `savings` becomes {} as it stands, without the inner
      default. */
  function NormaliseSavings(v: Json): Json
    requires v.JObj?
  {
    var base := Restrict(v.fields, SavingsKeySet);
    var cats := if "categories" in v.fields && v.fields["categories"].JArr?
      then JArr(seq(|v.fields["categories"].items|, i requires 0 <= i < |v.fields["categories"].items| => StripItem(v.fields["categories"].items[i])))
      else JArr([]);
    JObj(base["categories" := cats])
  }

  /** The value a field takes: its own, or the default when absent. */
  function OrDefault(body: map<string, Json>, key: string, default: Json): Json {
    if key in body then body[key] else default
  }

  /** The validated payload: None when a rule fails; otherwise the known
      fields, with `userSpends`, `savings` and `metadata` defaulting to {},
      `savings.categories` defaulting to [], and unknown keys stripped at
      every level that declares its keys (`metadata` declares none and is
      kept whole). */
  function ValidateAnalytics(body: map<string, Json>): (r: Option<map<string, Json>>)
    ensures r.Some? <==> AnalyticsValid(body)
    ensures r.Some? ==> r.value.Keys == (body.Keys * PayloadKeySet) + {"userSpends", "savings", "metadata"}
    ensures r.Some? ==> r.value["cardId"] == body["cardId"] && r.value["cardName"] == body["cardName"]
    ensures r.Some? && "userSpends" !in body ==> r.value["userSpends"] == JObj(map[])
    ensures r.Some? && "savings" !in body ==> r.value["savings"] == JObj(map[])
    ensures r.Some? && "metadata" !in body ==> r.value["metadata"] == JObj(map[])
    ensures r.Some? && "metadata" in body ==> r.value["metadata"] == body["metadata"]
    ensures r.Some? && "bankName" in body ==> r.value["bankName"] == body["bankName"]
    ensures r.Some? && "userSpends" in body ==>
      r.value["userSpends"] == JObj(Restrict(body["userSpends"].fields, SpendKeySet))
    ensures r.Some? && "savings" in body ==>
      var given := body["savings"].fields;
      var out := r.value["savings"];
      && out.JObj?
      && out.fields.Keys == (given.Keys * SavingsKeySet) + {"categories"}
      && ("totalSavings" in given ==> out.fields["totalSavings"] == given["totalSavings"])
      && ("netSavings" in given ==> out.fields["netSavings"] == given["netSavings"])
      && ("categories" !in given ==> out.fields["categories"] == JArr([]))
      && ("categories" in given ==>
            var items := given["categories"].items;
            && out.fields["categories"].JArr?
            && |out.fields["categories"].items| == |items|
            && forall i :: 0 <= i < |items| ==>
                 out.fields["categories"].items[i] == JObj(Restrict(items[i].fields, {"category", "savings"})))
  {
    if !AnalyticsValid(body) then None
    else
      var base := Restrict(body, PayloadKeySet);
      var spends := OrDefault(body, "userSpends", JObj(map[]));
      var savings := if "savings" in body then NormaliseSavings(body["savings"]) else JObj(map[]);
      Some(base["userSpends" := JObj(Restrict(spends.fields, SpendKeySet))]
               ["savings" := savings]
               ["metadata" := OrDefault(body, "metadata", JObj(map[]))])
  }

  /** A negative net savings is rejected, although the engines produce one
      whenever the savings fall short of the annual fee. */
  lemma NegativeNetSavingsRejected(body: map<string, Json>)
    requires "savings" in body && body["savings"].JObj?
    requires "netSavings" in body["savings"].fields
    requires var n := body["savings"].fields["netSavings"]; n.JNum? && n.n < 0.0
    ensures ValidateAnalytics(body).None?
  {
  }

  /** The smallest accepted payload: an id and a name; the rest is filled with
      the defaults. */
  lemma MinimalPayload()
    ensures ValidateAnalytics(map["cardId" := JNum(7.0), "cardName" := JStr("Regalia")])
      == Some(map["cardId" := JNum(7.0), "cardName" := JStr("Regalia"),
                  "userSpends" := JObj(map[]), "savings" := JObj(map[]), "metadata" := JObj(map[])])
  {
    var body := map["cardId" := JNum(7.0), "cardName" := JStr("Regalia")];
    assert AnalyticsValid(body);
    assert Restrict(body, PayloadKeySet) == body;
  }

  /** A missing or fractional card id, or an empty card name, is rejected. */
  lemma BadIdOrNameRejected(body: map<string, Json>)
    requires "cardId" !in body
      || body["cardId"] == JNum(1.5)
      || ("cardName" in body && body["cardName"] == JStr(""))
    ensures ValidateAnalytics(body).None?
  {
    if "cardId" in body && body["cardId"] == JNum(1.5) {
      assert (1.5).Floor == 1;
    }
  }

  /** Validating an accepted payload that had its own `savings` object again
      accepts it unchanged. */
  lemma ValidateAnalyticsIdempotent(body: map<string, Json>)
    requires ValidateAnalytics(body).Some?
    requires "savings" in body
    ensures ValidateAnalytics(ValidateAnalytics(body).value) == ValidateAnalytics(body)
  {
    AcceptedIsNormal(body);
    NormalRevalidates(ValidateAnalytics(body).value);
  }

  /** What validation leaves behind when `savings` was sent: a valid payload of
      known keys whose three objects are already stripped and defaulted. */
  lemma AcceptedIsNormal(body: map<string, Json>)
    requires ValidateAnalytics(body).Some?
    requires "savings" in body
    ensures var v := ValidateAnalytics(body).value;
      && AnalyticsValid(v)
      && v.Keys <= PayloadKeySet
      && "userSpends" in v && "savings" in v && "metadata" in v
      && Restrict(v["userSpends"].fields, SpendKeySet) == v["userSpends"].fields
      && NormaliseSavings(v["savings"]) == v["savings"]
  {
    SavingsNormalised(body);
    NormaliseSavingsIdempotent(body["savings"]);
  }

  /** A valid payload already in that shape is accepted as it is. */
  lemma NormalRevalidates(v: map<string, Json>)
    requires AnalyticsValid(v)
    requires v.Keys <= PayloadKeySet
    requires "userSpends" in v && "savings" in v && "metadata" in v
    requires Restrict(v["userSpends"].fields, SpendKeySet) == v["userSpends"].fields
    requires NormaliseSavings(v["savings"]) == v["savings"]
    ensures ValidateAnalytics(v) == Some(v)
  {
    var again := Restrict(v, PayloadKeySet)["userSpends" := v["userSpends"]]["savings" := v["savings"]]["metadata" := v["metadata"]];
    assert again == v;
  }

  /** Without a `savings` object the default {} is taken as it stands; once
      that {} is sent back, it is validated and gains `categories: []`. */
  lemma SavingsDefaultNotNormalised()
    ensures var body := map["cardId" := JNum(7.0), "cardName" := JStr("Regalia")];
      var once := ValidateAnalytics(body).value;
      && once["savings"] == JObj(map[])
      && ValidateAnalytics(once).value["savings"] == JObj(map["categories" := JArr([])])
  {
    MinimalPayload();
    var once := map["cardId" := JNum(7.0), "cardName" := JStr("Regalia"),
                    "userSpends" := JObj(map[]), "savings" := JObj(map[]), "metadata" := JObj(map[])];
    assert AnalyticsValid(once);
    assert Restrict(map[], SavingsKeySet) == map[];
  }

  /** The normalised `savings` and `userSpends` satisfy their own rules. */
  lemma SavingsNormalised(body: map<string, Json>)
    requires AnalyticsValid(body)
    ensures "savings" in body ==> SavingsObject(NormaliseSavings(body["savings"]))
    ensures "userSpends" in body ==> SpendsObject(JObj(Restrict(body["userSpends"].fields, SpendKeySet)))
  {
    if "savings" in body {
      var v := body["savings"];
      var n := NormaliseSavings(v);
      if "categories" in v.fields {
        var items := v.fields["categories"].items;
        forall i | 0 <= i < |items|
          ensures CategoryItem(StripItem(items[i]))
        {
          assert CategoryItem(items[i]);
        }
      }
    }
  }

  lemma NormaliseSavingsIdempotent(v: Json)
    requires SavingsObject(v)
    ensures NormaliseSavings(NormaliseSavings(v)) == NormaliseSavings(v)
  {
    var n := NormaliseSavings(v);
    var cats := n.fields["categories"];
    assert cats.JArr?;
    var again := seq(|cats.items|, i requires 0 <= i < |cats.items| => StripItem(cats.items[i]));
    forall i | 0 <= i < |cats.items|
      ensures again[i] == cats.items[i]
    {
      var it := cats.items[i];
      if it.JObj? {
        assert Restrict(it.fields, {"category", "savings"}) == it.fields;
      }
    }
    assert again == cats.items;
    assert Restrict(n.fields, SavingsKeySet) == n.fields;
  }
}
