/** The request rules of the recommendation endpoint (the router of
    backend/src/routes/recommendationRoutes.js validates its body with them
    before the controller runs): each of the four spend
    fields, when present, is a number at least 0, and at least one of them
    is present. Unknown keys are stripped from an accepted body. All
    field errors are reported, in field order; the "at least one" rule is
    checked only once every field is valid. */
module CalculateValidator {
  import opened Common
  import opened JsonValues

  /** The four spend fields, in schema order. */
  const SpendKeys: seq<string> := ["travel", "shopping", "fuel", "food"]

  /** The same four fields as a set, for the key-stripping rules. */
  const SpendKeySet: set<string> := {"travel", "shopping", "fuel", "food"}

  datatype CalcError =
    | NotANumber(key: string)
    | Unsafe(key: string)
    | BelowZero(key: string)
    | NoSpendCategory

  /** The error text reported for each rule. */
  function ErrorMessage(e: CalcError): string {
    match e
    case NotANumber(key) => "\"" + key + "\" must be a number"
    case Unsafe(key) => "\"" + key + "\" must be a safe number"
    case BelowZero(key) => "\"" + key + "\" must be greater than or equal to 0"
    case NoSpendCategory => "Provide at least one spend category with a value greater than zero"
  }

  /** The errors of one field: none when it is absent or a safe number at
      least 0. Joi's type check comes first and stops the field there: a
      non-number or an unsafe number gets no `min` error. */
  function FieldErrors(body: map<string, Json>, key: string): (es: seq<CalcError>)
    ensures es == [] <==> OptionalField(body, key, NonNegativeNumber)
    ensures |es| <= 1
    ensures key in body && !body[key].JNum? ==> es == [NotANumber(key)]
    ensures key in body && body[key].JNum? && !SafeNumber(body[key]) ==> es == [Unsafe(key)]
    ensures key in body && SafeNumber(body[key]) && body[key].n < 0.0 ==> es == [BelowZero(key)]
  {
    if key !in body then []
    else if !body[key].JNum? then [NotANumber(key)]
    else if !SafeNumber(body[key]) then [Unsafe(key)]
    else if body[key].n < 0.0 then [BelowZero(key)]
    else []
  }

  /** The field errors of the given keys, in order: every error belongs to
      one of the keys and is that field's own error, and every field with an
      error has it listed. */
  function AllFieldErrors(body: map<string, Json>, keys: seq<string>): (es: seq<CalcError>)
    ensures es == [] <==> forall i :: 0 <= i < |keys| ==> OptionalField(body, keys[i], NonNegativeNumber)
    ensures forall e :: e in es ==> e.NotANumber? || e.Unsafe? || e.BelowZero?
    ensures forall e :: e in es ==> !e.NoSpendCategory? && e.key in keys && FieldErrors(body, e.key) == [e]
    ensures forall i :: 0 <= i < |keys| && FieldErrors(body, keys[i]) != [] ==> FieldErrors(body, keys[i])[0] in es
  {
    if keys == [] then []
    else FieldErrors(body, keys[0]) + AllFieldErrors(body, keys[1..])
  }

  /** The custom rule: some spend field is present (its value may be 0). */
  predicate HasSpendCategory(body: map<string, Json>) {
    "travel" in body || "shopping" in body || "fuel" in body || "food" in body
  }

  /** Every present spend field is a number at least 0. */
  predicate SpendFieldsValid(body: map<string, Json>) {
    forall key :: key in SpendKeySet ==> OptionalField(body, key, NonNegativeNumber)
  }

  /** The schema with `stripUnknown`: the accepted body keeps only the
      spend fields; rejection lists every field error, in field order, or,
      when the fields are valid, the missing-category error alone. */
  function ValidateCalculate(body: map<string, Json>): (r: Result<map<string, Json>, seq<CalcError>>)
    ensures r.Ok? <==> SpendFieldsValid(body) && HasSpendCategory(body)
    ensures r.Ok? ==> r.value == Restrict(body, SpendKeySet)
    ensures r.Err? ==> |r.error| > 0
    ensures r.Err? && SpendFieldsValid(body) ==> r.error == [NoSpendCategory]
    ensures r.Err? && !SpendFieldsValid(body) ==> NoSpendCategory !in r.error
    ensures !SpendFieldsValid(body) ==> r == Err(AllFieldErrors(body, SpendKeys))
  {
    var errors := AllFieldErrors(body, SpendKeys);
    assert forall key :: key in SpendKeySet <==> key in SpendKeys;
    if errors != [] then Err(errors)
    else if !HasSpendCategory(body) then Err([NoSpendCategory])
    else Ok(Restrict(body, SpendKeySet))
  }

  /** A body with every present spend equal to 0 is accepted: the custom
      rule asks only for a present field, although its message speaks of a
      value greater than zero. */
  lemma AllZeroAccepted()
    ensures ValidateCalculate(map["travel" := JNum(0.0)]).Ok?
  {
  }

  /** A spend beyond the safe-integer range is rejected with the `number.unsafe`
      error alone, even when it is negative. */
  lemma UnsafeSpendRejected()
    ensures ValidateCalculate(map["travel" := JNum(MaxSafeInteger + 1.0)]) == Err([Unsafe("travel")])
    ensures ValidateCalculate(map["food" := JNum(-MaxSafeInteger - 1.0)]) == Err([Unsafe("food")])
  {
    var a := map["travel" := JNum(MaxSafeInteger + 1.0)];
    assert FieldErrors(a, "shopping") == [] && FieldErrors(a, "fuel") == [] && FieldErrors(a, "food") == [];
    assert AllFieldErrors(a, SpendKeys) == [Unsafe("travel")];
    var b := map["food" := JNum(-MaxSafeInteger - 1.0)];
    assert FieldErrors(b, "travel") == [] && FieldErrors(b, "shopping") == [] && FieldErrors(b, "fuel") == [];
    assert SpendKeys[1..] == ["shopping", "fuel", "food"] && SpendKeys[1..][1..] == ["fuel", "food"];
    assert AllFieldErrors(b, ["food"]) == [Unsafe("food")];
    assert AllFieldErrors(b, ["fuel", "food"]) == [Unsafe("food")];
    assert AllFieldErrors(b, SpendKeys) == [Unsafe("food")];
  }

  /** The empty body is rejected with the custom rule's message only. */
  lemma EmptyBodyRejected()
    ensures ValidateCalculate(map[]) == Err([NoSpendCategory])
    ensures ErrorMessage(NoSpendCategory) == "Provide at least one spend category with a value greater than zero"
  {
  }

  /** Validating an accepted body again accepts it unchanged. */
  lemma ValidateIdempotent(body: map<string, Json>)
    requires ValidateCalculate(body).Ok?
    ensures ValidateCalculate(ValidateCalculate(body).value) == ValidateCalculate(body)
  {
    var v := ValidateCalculate(body).value;
    assert Restrict(v, SpendKeySet) == v;
  }

  /** Keys other than the spend fields play no part in the verdict. */
  lemma UnknownKeysIgnored(body: map<string, Json>, extra: map<string, Json>)
    requires forall key :: key in extra ==> key !in SpendKeySet
    ensures ValidateCalculate(body + extra) == ValidateCalculate(Restrict(body, SpendKeySet))
  {
    var b := body + extra;
    var r := Restrict(body, SpendKeySet);
    assert forall key :: key in SpendKeySet ==> (key in b <==> key in r) && (key in b ==> b[key] == r[key]);
    AllFieldErrorsAgree(b, r, SpendKeys);
    assert Restrict(b, SpendKeySet) == Restrict(r, SpendKeySet);
  }

  lemma {:induction false} AllFieldErrorsAgree(a: map<string, Json>, b: map<string, Json>, keys: seq<string>)
    requires forall i :: 0 <= i < |keys| ==> (keys[i] in a <==> keys[i] in b) && (keys[i] in a ==> a[keys[i]] == b[keys[i]])
    ensures AllFieldErrors(a, keys) == AllFieldErrors(b, keys)
  {
    if keys != [] {
      AllFieldErrorsAgree(a, b, keys[1..]);
    }
  }

  /** Every value of an accepted body is a number at least 0. */
  lemma AcceptedValuesNonNegative(body: map<string, Json>)
    requires ValidateCalculate(body).Ok?
    ensures forall key :: key in ValidateCalculate(body).value ==>
      key in SpendKeySet && NonNegativeNumber(ValidateCalculate(body).value[key])
  {
  }
}
