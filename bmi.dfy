/** The body-mass index shown on the profile page (app.js, calculateBMI). */
module Bmi {
  import opened Options

  /** The four bands of the ladder. */
  datatype Category = Sottopeso | Normale | Sovrappeso | Obesita

  /** The ladder: below 18.5, below 25, below 30, and the rest. Each band is a half-open
      interval, and together they cover every value. */
  function Classify(bmi: real): (c: Category)
    ensures c == Sottopeso <==> bmi < 18.5
    ensures c == Normale <==> 18.5 <= bmi < 25.0
    ensures c == Sovrappeso <==> 25.0 <= bmi < 30.0
    ensures c == Obesita <==> 30.0 <= bmi
  {
    if bmi < 18.5 then Sottopeso
    else if bmi < 25.0 then Normale
    else if bmi < 30.0 then Sovrappeso
    else Obesita
  }

  /** The position of a band on the ladder, lightest first. */
  function Rank(c: Category): nat {
    match c
    case Sottopeso => 0
    case Normale => 1
    case Sovrappeso => 2
    case Obesita => 3
  }

  /** A larger index never falls in a lighter band. */
  lemma ClassifyMonotone(a: real, b: real)
    requires a <= b
    ensures Rank(Classify(a)) <= Rank(Classify(b))
  {
  }

  /** `peso / Math.pow(altezza / 100, 2)`: weight over the square of the height in metres
      (the field holds centimetres). */
  function Index(peso: real, altezza: real): (bmi: real)
    requires altezza != 0.0
    ensures bmi * ((altezza / 100.0) * (altezza / 100.0)) == peso
  {
    var m := altezza / 100.0;
    assert m * m != 0.0;
    peso / (m * m)
  }

  /** The square of a non-zero number is positive. */
  lemma SquarePositive(m: real)
    requires m != 0.0
    ensures m * m > 0.0
  {
    if m < 0.0 { assert m * m == (-m) * (-m); }
  }

  /** A positive product with a square factor has a positive other factor. */
  lemma FactorSign(b: real, m: real)
    requires m != 0.0
    ensures b * (m * m) > 0.0 ==> b > 0.0
  {
    SquarePositive(m);
  }

  /** A positive weight gives a positive index. */
  lemma IndexPositive(peso: real, altezza: real)
    requires altezza != 0.0
    ensures peso > 0.0 ==> Index(peso, altezza) > 0.0
  {
    FactorSign(Index(peso, altezza), altezza / 100.0);
  }

  /** For a given height, a heavier weight gives a larger index. */
  lemma IndexMonotoneInWeight(p1: real, p2: real, altezza: real)
    requires altezza != 0.0 && p1 <= p2
    ensures Index(p1, altezza) <= Index(p2, altezza)
  {
    var d := Index(p2, altezza) - Index(p1, altezza);
    var m := altezza / 100.0;
    if p1 < p2 {
      assert d * (m * m) == p2 - p1;
      FactorSign(d, m);
    }
  }

  /** What the BMI field shows: the index and its band, or nothing. */
  datatype Reading = Reading(bmi: real, category: Category)

  /** calculateBMI on the parsed fields, `None` standing for a field `parseFloat` reads as NaN.
      A reading is shown exactly when both numbers are present and non-zero (`peso && altezza`);
      a positive weight gives a positive index. */
  function CalculateBmi(peso: Option<real>, altezza: Option<real>): (r: Option<Reading>)
    ensures r.Some? <==> peso.Some? && altezza.Some? && peso.value != 0.0 && altezza.value != 0.0
    ensures r.Some? ==>
      && r.value.bmi * ((altezza.value / 100.0) * (altezza.value / 100.0)) == peso.value
      && r.value.category == Classify(r.value.bmi)
      && (peso.value > 0.0 ==> r.value.bmi > 0.0)
  {
    if peso.Some? && altezza.Some? && peso.value != 0.0 && altezza.value != 0.0 then
      var bmi := Index(peso.value, altezza.value);
      IndexPositive(peso.value, altezza.value);
      Some(Reading(bmi, Classify(bmi)))
    else None
  }
}
