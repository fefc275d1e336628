/** Small helpers shared by every module: optional values, results, and the
    JavaScript number behaviour the engine relies on (truthiness, Math.round). */
module Common {

  datatype Option<+T> = None | Some(value: T)

  datatype Result<+R, +E> = Ok(value: R) | Err(error: E)

  /** A JavaScript number standing for an amount is falsy exactly when it is 0
      (NaN cannot arise in this model, since all amounts are exact reals). */
  predicate Truthy(x: real) {
    x != 0.0
  }

  /** A string read from the database is falsy when it is empty; SQL NULL is
      modelled as the empty string, which is falsy too. */
  predicate TruthyText(s: string) {
    s != ""
  }

  /** JavaScript Math.round: the nearest integer, halves rounded toward +infinity
      (so Math.round(-2.5) is -2). */
  function Round(x: real): (r: int)
    ensures x - 0.5 < r as real <= x + 0.5
  {
    (x + 0.5).Floor
  }

  /** Math.round is determined by its bounds: any integer within half a unit
      (the upper half included) is the rounded value. */
  lemma RoundUnique(x: real, n: int)
    requires x - 0.5 < n as real <= x + 0.5
    ensures Round(x) == n
  {
  }

  /** Shifting the argument by a whole number shifts Math.round by the same amount. */
  lemma RoundShift(x: real, n: int)
    ensures Round(x - n as real) == Round(x) - n
  {
    RoundUnique(x - n as real, Round(x) - n);
  }

  /** Math.round of a whole number is that number. */
  lemma RoundOfInteger(n: int)
    ensures Round(n as real) == n
  {
    RoundUnique(n as real, n);
  }

  /** Math.round is monotone. */
  lemma RoundMonotone(x: real, y: real)
    requires x <= y
    ensures Round(x) <= Round(y)
  {
  }

  /** Extending a prefix of a sequence by one element. */
  lemma TakeSnoc<T>(s: seq<T>, i: nat)
    requires i < |s|
    ensures s[..i + 1] == s[..i] + [s[i]]
  {
  }
}
