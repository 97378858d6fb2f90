/** The third page script's screen: a body-mass-index proxy, independent of
    the height-for-age classifiers, that flags malnutrition when the index
    falls below 14. */
module BmiScreen {

  /** The lowest index the screen accepts as not malnourished. */
  const Threshold: real := 14.0

  /** What one press of "Analizar desnutrición" decides. */
  datatype BmiOutcome =
    | MissingData                 // some input is not positive: the warning is shown
    | Malnourished(imc: real)     // index below the threshold: the error box
    | NotMalnourished(imc: real)  // index at or above it: the success box

  /** All three inputs must be positive before anything is computed. */
  predicate Complete(edad: int, peso: real, estatura: real) {
    edad > 0 && peso > 0.0 && estatura > 0.0
  }

  /** The product of two positive numbers, which is positive. */
  function Product(a: real, b: real): (r: real)
    requires a > 0.0 && b > 0.0
    ensures r > 0.0
  {
    a * b
  }

  /** `(estatura / 100) ** 2`: the square of the height in metres. */
  function MetresSquared(estatura: real): (r: real)
    requires estatura > 0.0
    ensures r > 0.0
  {
    Product(estatura / 100.0, estatura / 100.0)
  }

  /** The body-mass index `peso / (estatura / 100) ** 2`: weight in kg over
      the square of the height in metres. */
  function Imc(peso: real, estatura: real): (r: real)
    requires estatura > 0.0
    ensures peso > 0.0 ==> r > 0.0
    ensures r * MetresSquared(estatura) == peso
  {
    peso / MetresSquared(estatura)
  }

  /** The decision: incomplete data is refused; otherwise the index is
      computed and compared with the threshold, strictly, so an index of
      exactly 14 is not malnourished. */
  function Assess(edad: int, peso: real, estatura: real): (r: BmiOutcome)
    ensures r.MissingData? <==> !Complete(edad, peso, estatura)
    ensures !r.MissingData? ==> r.imc == Imc(peso, estatura) && r.imc > 0.0
    ensures r.Malnourished? <==> Complete(edad, peso, estatura) && Imc(peso, estatura) < Threshold
    ensures r.NotMalnourished? <==> Complete(edad, peso, estatura) && Imc(peso, estatura) >= Threshold
  {
    if Complete(edad, peso, estatura) then
      var imc := Imc(peso, estatura);
      if imc < Threshold then Malnourished(imc) else NotMalnourished(imc)
    else MissingData
  }

  /** The same decision without division: a child is flagged exactly when
      the weight is below 14 times the square of the height in metres. */
  lemma MalnourishedIffUnderweight(edad: int, peso: real, estatura: real)
    requires Complete(edad, peso, estatura)
    ensures Assess(edad, peso, estatura).Malnourished? <==> peso < Threshold * MetresSquared(estatura)
  {
    QuotientBelow(peso, MetresSquared(estatura), Threshold);
  }

  /** Dividing by a positive number: `x / d < c` exactly when `x < c * d`. */
  lemma QuotientBelow(x: real, d: real, c: real)
    requires d > 0.0
    ensures x / d < c <==> x < c * d
  {
    var q := x / d;
    assert q * d == x;
    if q < c {
      assert q * d < c * d;
    } else {
      assert q * d >= c * d;
    }
  }

  /** At a fixed height, a lighter child is flagged whenever a heavier one
      is. */
  lemma LighterStaysFlagged(edad: int, lighter: real, heavier: real, estatura: real)
    requires Complete(edad, lighter, estatura)
    requires lighter <= heavier
    requires Assess(edad, heavier, estatura).Malnourished?
    ensures Assess(edad, lighter, estatura).Malnourished?
  {
    MalnourishedIffUnderweight(edad, heavier, estatura);
    MalnourishedIffUnderweight(edad, lighter, estatura);
  }

  /** The box Streamlit draws. */
  datatype Alert = ErrorBox | SuccessBox | WarningBox

  /** What the page shows: the box and its text. */
  datatype Report = Report(outcome: BmiOutcome, alert: Alert, text: string)

  const MissingDataText: string :=
    "Por favor, ingrese todos los datos del menor para realizar el análisis."

  /** The page's response. `nombre` is the name typed into the form, and
      `twoDecimals` stands for the `{imc:.2f}` formatting. The name and the
      formatted index appear only in the text; the outcome is `Assess` of the
      measurements and the box follows the outcome. */
  function Analyze(nombre: string, edad: int, peso: real, estatura: real,
                   twoDecimals: real -> string): (r: Report)
    ensures r.outcome == Assess(edad, peso, estatura)
    ensures r.alert == ErrorBox <==> r.outcome.Malnourished?
    ensures r.alert == SuccessBox <==> r.outcome.NotMalnourished?
    ensures r.alert == WarningBox <==> r.outcome.MissingData?
    ensures r.outcome.MissingData? ==> r.text == MissingDataText
    ensures r.outcome.Malnourished? ==>
      r.text == "El menor " + nombre + " presenta desnutrición crónica (IMC: " + twoDecimals(r.outcome.imc) + ")"
    ensures r.outcome.NotMalnourished? ==>
      r.text == "El menor " + nombre + " no presenta desnutrición crónica (IMC: " + twoDecimals(r.outcome.imc) + ")"
  {
    var outcome := Assess(edad, peso, estatura);
    match outcome
    case MissingData => Report(outcome, WarningBox, MissingDataText)
    case Malnourished(imc) =>
      Report(outcome, ErrorBox, "El menor " + nombre + " presenta desnutrición crónica (IMC: " + twoDecimals(imc) + ")")
    case NotMalnourished(imc) =>
      Report(outcome, SuccessBox, "El menor " + nombre + " no presenta desnutrición crónica (IMC: " + twoDecimals(imc) + ")")
  }

  /** The name changes the text and nothing else: two children with the same
      measurements get the same outcome and the same box. */
  lemma NameOnlyAffectsText(a: string, b: string, edad: int, peso: real, estatura: real,
                            twoDecimals: real -> string)
    ensures Analyze(a, edad, peso, estatura, twoDecimals).outcome == Analyze(b, edad, peso, estatura, twoDecimals).outcome
    ensures Analyze(a, edad, peso, estatura, twoDecimals).alert == Analyze(b, edad, peso, estatura, twoDecimals).alert
  {
  }

  /** An 8 kg child 65 cm tall has an index of 8 / 0.4225, about 18.93, and is
      not flagged. */
  lemma EightKilosAtSixtyFive()
    ensures Assess(1, 8.0, 65.0).NotMalnourished?
  {
    assert MetresSquared(65.0) == 0.4225;
    var imc := Imc(8.0, 65.0);
    assert imc * 0.4225 == 8.0;
  }
}
