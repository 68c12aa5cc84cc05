// The Home screen of the BMI calculator: the form state, its update handler,
// the submission gate and the BMI engine that builds the record handed to the
// Result screen. Quantities are exact reals; JavaScript's double arithmetic is
// not modelled.

module HomePage {

  datatype Option<T> = None | Some(value: T)

  // ---------------------------------------------------------------------------
  // Form state
  // ---------------------------------------------------------------------------

  /** The four text fields of the form, as typed by the user. */
  datatype UserData = UserData(height: string, weight: string, age: string, gender: string)

  /** The keys of UserData that the change handler can be bound to. */
  datatype Field = Height | Weight | Age | Gender

  function FieldValue(d: UserData, f: Field): string
  {
    match f
    case Height => d.height
    case Weight => d.weight
    case Age => d.age
    case Gender => d.gender
  }

  /** `{ ...prev, [field]: value }`: the record with one key replaced. */
  function WithField(d: UserData, f: Field, v: string): (r: UserData)
    ensures FieldValue(r, f) == v
    ensures forall g :: g != f ==> FieldValue(r, g) == FieldValue(d, g)
  {
    match f
    case Height => d.(height := v)
    case Weight => d.(weight := v)
    case Age => d.(age := v)
    case Gender => d.(gender := v)
  }

  /** `event.detail.value || ''`: a missing event value is stored as the empty string. */
  function EventValue(v: Option<string>): (s: string)
    ensures v.Some? ==> s == v.value
    ensures v.None? ==> s == ""
  {
    if v.Some? then v.value else ""
  }

  /** The state the form starts in. */
  const InitialForm := UserData("", "", "", "masculino")

  /** The fields the calculation needs. */
  const RequiredFields: set<Field> := {Height, Weight}

  /** `isFormValid`: the calculate button is enabled exactly when height and weight are non-empty. */
  function IsFormValid(d: UserData): (valid: bool)
    ensures valid <==> forall f :: f in RequiredFields ==> FieldValue(d, f) != ""
  {
    d.height != "" && d.weight != ""
  }

  /** The Home component's `formData` state and its change handler. */
  class HomeForm {
    var formData: UserData

    constructor ()
      ensures formData == InitialForm
      ensures !IsFormValid(formData)
    {
      formData := InitialForm;
    }

    /** `handleInputChange(field)(event)`: stores the event's value (or '') under `field` only. */
    method HandleInputChange(field: Field, value: Option<string>)
      modifies this
      ensures formData == WithField(old(formData), field, EventValue(value))
      ensures forall g :: g != field ==> FieldValue(formData, g) == FieldValue(old(formData), g)
      ensures field == Age || field == Gender ==> IsFormValid(formData) == old(IsFormValid(formData))
    {
      formData := WithField(formData, field, EventValue(value));
    }
  }

  // ---------------------------------------------------------------------------
  // WHO classification
  // ---------------------------------------------------------------------------

  /** The six WHO adult bands, in ascending order. */
  datatype Band = Underweight | Normal | Overweight | ObesityI | ObesityII | ObesityIII

  /** The label the app shows for each band, verbatim. */
  function Label(b: Band): string
  {
    match b
    case Underweight => "Abaixo do peso"
    case Normal => "Peso normal"
    case Overweight => "Sobrepeso"
    case ObesityI => "Obesidade Grau I"
    case ObesityII => "Obesidade Grau II"
    case ObesityIII => "Obesidade Grau III"
  }

  function Rank(b: Band): nat
  {
    match b
    case Underweight => 0
    case Normal => 1
    case Overweight => 2
    case ObesityI => 3
    case ObesityII => 4
    case ObesityIII => 5
  }

  /** Inclusive lower limit of a band, None for the first. */
  function LowerLimit(b: Band): Option<real>
  {
    match b
    case Underweight => None
    case Normal => Some(18.5)
    case Overweight => Some(25.0)
    case ObesityI => Some(30.0)
    case ObesityII => Some(35.0)
    case ObesityIII => Some(40.0)
  }

  /** Exclusive upper limit of a band, None for the last. */
  function UpperLimit(b: Band): Option<real>
  {
    match b
    case Underweight => Some(18.5)
    case Normal => Some(25.0)
    case Overweight => Some(30.0)
    case ObesityI => Some(35.0)
    case ObesityII => Some(40.0)
    case ObesityIII => None
  }

  /** The WHO table read as half-open intervals [lower, upper). */
  predicate InBand(imc: real, b: Band)
  {
    (LowerLimit(b).None? || LowerLimit(b).value <= imc) &&
    (UpperLimit(b).None? || imc < UpperLimit(b).value)
  }

  /** The if/else chain of `calculateIMC`: the band whose interval holds imc, and no other. */
  function Classify(imc: real): (b: Band)
    ensures InBand(imc, b)
    ensures forall c :: InBand(imc, c) ==> c == b
  {
    if imc < 18.5 then Underweight
    else if imc < 25.0 then Normal
    else if imc < 30.0 then Overweight
    else if imc < 35.0 then ObesityI
    else if imc < 40.0 then ObesityII
    else ObesityIII
  }

  /** A larger imc never falls into a lower band. */
  lemma ClassifyMonotone(a: real, b: real)
    requires a <= b
    ensures Rank(Classify(a)) <= Rank(Classify(b))
  {
  }

  /** Consecutive bands share their limit, so the bands leave no gap between them. */
  lemma BandsAdjacent(b: Band, c: Band)
    requires Rank(c) == Rank(b) + 1
    ensures UpperLimit(b).Some? && LowerLimit(c) == UpperLimit(b)
  {
  }

  /** Each limit belongs to the higher band. */
  lemma BoundaryGoesUp()
    ensures Classify(18.5) == Normal
    ensures Classify(25.0) == Overweight
    ensures Classify(30.0) == ObesityI
    ensures Classify(35.0) == ObesityII
    ensures Classify(40.0) == ObesityIII
  {
  }

  // ---------------------------------------------------------------------------
  // Formula and ideal-weight range
  // ---------------------------------------------------------------------------

  function Square(x: real): real
  {
    x * x
  }

  /** The square of a non-zero real is positive. */
  lemma SquarePositive(x: real)
    ensures Square(x) >= 0.0
    ensures x != 0.0 ==> Square(x) > 0.0
  {
    if x != 0.0 {
      NonZeroSquare(x);
    }
  }

  lemma NonZeroSquare(x: real)
    requires x != 0.0
    ensures Square(x) > 0.0
  {
    assert Square(x) / x == x;
  }

  /** Dividing by a positive s and comparing with k is comparing with k * s. */
  lemma DivideCompare(w: real, s: real, k: real)
    requires s > 0.0
    ensures (w / s) * s == w
    ensures w / s < k <==> w < k * s
    ensures w / s > k <==> w > k * s
    ensures w / s == k <==> w == k * s
  {
  }

  /** `parseFloat(height) / 100`. */
  function HeightInMeters(heightCm: real): (h: real)
    ensures h * 100.0 == heightCm
  {
    heightCm / 100.0
  }

  /** `weight / (h * h)` with h in metres: positive for a positive weight, whatever the
      sign of the height. */
  function Imc(heightCm: real, weightKg: real): (imc: real)
    requires heightCm != 0.0
    ensures weightKg > 0.0 ==> imc > 0.0
    ensures weightKg == 0.0 ==> imc == 0.0
    ensures weightKg < 0.0 ==> imc < 0.0
  {
    var h := HeightInMeters(heightCm);
    SquarePositive(h);
    DivideCompare(weightKg, Square(h), 0.0);
    weightKg / Square(h)
  }

  /** Lower end of the ideal range: the weight at BMI 18.5. */
  function MinIdealWeight(heightCm: real): (w: real)
    ensures w >= 0.0
    ensures heightCm != 0.0 ==> w > 0.0
  {
    SquarePositive(HeightInMeters(heightCm));
    18.5 * Square(HeightInMeters(heightCm))
  }

  /** Upper end of the ideal range: the weight at BMI 24.9. */
  function MaxIdealWeight(heightCm: real): (w: real)
    ensures w >= 0.0
    ensures heightCm != 0.0 ==> w > 0.0
  {
    SquarePositive(HeightInMeters(heightCm));
    24.9 * Square(HeightInMeters(heightCm))
  }

  /** For every height the ideal range is non-empty, and proper when the height is not zero. */
  lemma IdealRangeOrdered(heightCm: real)
    ensures 0.0 <= MinIdealWeight(heightCm) <= MaxIdealWeight(heightCm)
    ensures heightCm != 0.0 ==> MinIdealWeight(heightCm) < MaxIdealWeight(heightCm)
  {
    SquarePositive(HeightInMeters(heightCm));
  }

  /** The ends of the ideal range are the weights whose BMI is exactly 18.5 and 24.9. */
  lemma IdealBoundsImc(heightCm: real)
    requires heightCm != 0.0
    ensures Imc(heightCm, MinIdealWeight(heightCm)) == 18.5
    ensures Imc(heightCm, MaxIdealWeight(heightCm)) == 24.9
  {
    var s := Square(HeightInMeters(heightCm));
    SquarePositive(HeightInMeters(heightCm));
    DivideCompare(MinIdealWeight(heightCm), s, 18.5);
    DivideCompare(MaxIdealWeight(heightCm), s, 24.9);
  }

  /** Comparing imc with c is comparing the weight with c times the squared height,
      and imc times the squared height gives the weight back. */
  lemma ImcCompare(heightCm: real, weightKg: real, c: real)
    requires heightCm != 0.0
    ensures Imc(heightCm, weightKg) * Square(HeightInMeters(heightCm)) == weightKg
    ensures Imc(heightCm, weightKg) < c <==> weightKg < c * Square(HeightInMeters(heightCm))
    ensures Imc(heightCm, weightKg) > c <==> weightKg > c * Square(HeightInMeters(heightCm))
  {
    var s := Square(HeightInMeters(heightCm));
    SquarePositive(HeightInMeters(heightCm));
    DivideCompare(weightKg, s, c);
  }

  /** The ideal range is exactly the set of weights whose BMI lies in [18.5, 24.9]. */
  lemma IdealRangeMeaning(heightCm: real, weightKg: real)
    requires heightCm != 0.0
    ensures MinIdealWeight(heightCm) <= weightKg <= MaxIdealWeight(heightCm)
        <==> 18.5 <= Imc(heightCm, weightKg) <= 24.9
  {
    ImcCompare(heightCm, weightKg, 18.5);
    ImcCompare(heightCm, weightKg, 24.9);
  }

  // ---------------------------------------------------------------------------
  // Adjustment and the engine
  // ---------------------------------------------------------------------------

  /** The adjustment direction: 'ganhar', 'perder' or ''. */
  datatype Adjustment = Gain | Lose | NoChange

  function AdjustmentType(a: Adjustment): string
  {
    match a
    case Gain => "ganhar"
    case Lose => "perder"
    case NoChange => ""
  }

  /** The unrounded quantities `calculateIMC` computes before formatting them. */
  datatype Assessment = Assessment(
    imc: real,
    band: Band,
    minIdealWeight: real,
    maxIdealWeight: real,
    weightToAdjust: real,
    adjustment: Adjustment)

  /** The numeric core of `calculateIMC`. The band uses 25 as its upper normal limit,
      the adjustment uses 24.9: both constants are kept. */
  function Assess(heightCm: real, weightKg: real): (r: Assessment)
    requires heightCm != 0.0
    ensures r.imc == Imc(heightCm, weightKg) && r.band == Classify(r.imc)
    ensures r.minIdealWeight == MinIdealWeight(heightCm) && r.maxIdealWeight == MaxIdealWeight(heightCm)
    ensures r.adjustment == Gain <==> r.imc < 18.5
    ensures r.adjustment == Lose <==> r.imc > 24.9
    ensures r.adjustment == Gain ==> r.weightToAdjust == r.minIdealWeight - weightKg > 0.0
    ensures r.adjustment == Lose ==> r.weightToAdjust == weightKg - r.maxIdealWeight > 0.0
    ensures r.adjustment == NoChange ==>
      r.weightToAdjust == 0.0 && r.minIdealWeight <= weightKg <= r.maxIdealWeight
  {
    var imc := Imc(heightCm, weightKg);
    var minIdeal := MinIdealWeight(heightCm);
    var maxIdeal := MaxIdealWeight(heightCm);
    ImcCompare(heightCm, weightKg, 18.5);
    ImcCompare(heightCm, weightKg, 24.9);
    if imc < 18.5 then
      Assessment(imc, Classify(imc), minIdeal, maxIdeal, minIdeal - weightKg, Gain)
    else if imc > 24.9 then
      Assessment(imc, Classify(imc), minIdeal, maxIdeal, weightKg - maxIdeal, Lose)
    else
      Assessment(imc, Classify(imc), minIdeal, maxIdeal, 0.0, NoChange)
  }

  /** A BMI in (24.9, 25) is classified "Peso normal" and still told to lose weight. */
  lemma NormalYetLose(heightCm: real, weightKg: real)
    requires heightCm != 0.0
    requires 24.9 < Imc(heightCm, weightKg) < 25.0
    ensures Label(Assess(heightCm, weightKg).band) == "Peso normal"
    ensures AdjustmentType(Assess(heightCm, weightKg).adjustment) == "perder"
    ensures Assess(heightCm, weightKg).weightToAdjust > 0.0
  {
  }

  /** Only the Normal band can come without a "perder"/"ganhar" verdict, and
      every band other than Normal always comes with one. */
  lemma AdjustmentAgreesWithBand(heightCm: real, weightKg: real)
    requires heightCm != 0.0
    ensures Assess(heightCm, weightKg).band == Underweight <==> Assess(heightCm, weightKg).adjustment == Gain
    ensures Rank(Assess(heightCm, weightKg).band) >= 2 ==> Assess(heightCm, weightKg).adjustment == Lose
    ensures Assess(heightCm, weightKg).adjustment == NoChange ==> Assess(heightCm, weightKg).band == Normal
  {
  }

  // ---------------------------------------------------------------------------
  // Number formatting
  // ---------------------------------------------------------------------------

  function Pow10(d: nat): (p: nat)
    ensures p >= 1
  {
    if d == 0 then 1 else 10 * Pow10(d - 1)
  }

  /** A decimal numeral with a fixed number of fraction digits, as `toFixed` prints
      it: `units` is the numeral with its decimal point removed ("22.86" is
      Fixed(2286, 2), "0" is Fixed(0, 0)). */
  datatype Fixed = Fixed(units: int, digits: nat)

  /** The integer nearest to y, halves rounded away from zero. */
  function RoundHalfAway(y: real): (n: int)
    ensures y >= 0.0 ==> n >= 0 && (n as real) - 0.5 <= y < (n as real) + 0.5
    ensures y <= 0.0 ==> n <= 0 && (n as real) - 0.5 < y <= (n as real) + 0.5
  {
    if y < 0.0 then -((-y + 0.5).Floor) else (y + 0.5).Floor
  }

  /** x measured in units of the last of `digits` fraction digits. */
  function Scaled(x: real, digits: nat): real
  {
    x * Pow10(digits) as real
  }

  /** `x.toFixed(digits)` for the exact real x: the numeral with `digits` fraction
      digits nearest to x, halves rounded away from zero. */
  function ToFixed(x: real, digits: nat): (f: Fixed)
    ensures f.digits == digits
    ensures -0.5 <= Scaled(x, digits) - f.units as real <= 0.5
    ensures x >= 0.0 ==> Scaled(x, digits) < f.units as real + 0.5
    ensures x <= 0.0 ==> f.units as real - 0.5 < Scaled(x, digits)
    ensures x >= 0.0 ==> f.units >= 0
    ensures x <= 0.0 ==> f.units <= 0
  {
    ScaleSign(x, Pow10(digits) as real);
    Fixed(RoundHalfAway(Scaled(x, digits)), digits)
  }

  /** Multiplying by a positive m keeps the sign and the order. */
  lemma ScaleSign(a: real, m: real)
    requires m > 0.0
    ensures a >= 0.0 ==> a * m >= 0.0
    ensures a <= 0.0 ==> a * m <= 0.0
  {
  }

  lemma ScaleOrder(a: real, b: real, m: real)
    requires m > 0.0
    ensures a <= b <==> a * m <= b * m
  {
  }

  /** A non-negative value rounds to zero exactly when it is below one half. */
  lemma RoundZero(y: real)
    requires y >= 0.0
    ensures RoundHalfAway(y) == 0 <==> y < 0.5
  {
    var n := RoundHalfAway(y);
    if y < 0.5 {
      assert (n as real) < 1.0;
    }
  }

  /** A non-negative value prints as zero exactly when it is below half a unit of the
      last digit. */
  lemma ToFixedZero(x: real, digits: nat)
    requires x >= 0.0
    ensures ToFixed(x, digits).units == 0 <==> Scaled(x, digits) < 0.5
  {
    ScaleSign(x, Pow10(digits) as real);
    RoundZero(Scaled(x, digits));
  }

  /** Rounding keeps the order of its non-negative arguments. */
  lemma RoundMonotone(a: real, b: real)
    requires 0.0 <= a <= b
    ensures RoundHalfAway(a) <= RoundHalfAway(b)
  {
    var m, n := RoundHalfAway(a), RoundHalfAway(b);
    assert (m as real) - 0.5 < (n as real) + 0.5;
  }

  /** Printing keeps the order of non-negative values. */
  lemma ToFixedMonotone(x: real, y: real, digits: nat)
    requires 0.0 <= x <= y
    ensures ToFixed(x, digits).units <= ToFixed(y, digits).units
  {
    var p := Pow10(digits) as real;
    ScaleSign(x, p);
    ScaleOrder(x, y, p);
    RoundMonotone(Scaled(x, digits), Scaled(y, digits));
  }

  // ---------------------------------------------------------------------------
  // calculateIMC
  // ---------------------------------------------------------------------------

  /** `CalculationResult`: the record passed to the Result screen. The numeric fields
      hold the numerals `toFixed` produced. */
  datatype CalculationResult = CalculationResult(
    imc: Fixed,
    classification: string,
    weightToAdjust: Fixed,
    adjustmentType: string,
    minIdealWeight: Fixed,
    maxIdealWeight: Fixed,
    height: string,
    weight: string,
    age: string,
    gender: string)

  /** What pressing "Calcular IMC" does: only an alert, navigation with a record, or
      a computation that leaves the reals (a NaN input or a zero height). */
  datatype Submission = Blocked | Navigate(result: CalculationResult) | NotFinite

  /** The numeral emitted for the amount to adjust: '0' unless the amount is positive. */
  function AdjustmentNumeral(weightToAdjust: real): (f: Fixed)
    ensures weightToAdjust <= 0.0 ==> f == Fixed(0, 0)
    ensures weightToAdjust > 0.0 ==> f == ToFixed(weightToAdjust, 1)
    ensures f.units >= 0
    ensures f.units > 0 ==> weightToAdjust > 0.0
  {
    if weightToAdjust > 0.0 then ToFixed(weightToAdjust, 1) else Fixed(0, 0)
  }

  /** The record `calculateIMC` builds from the parsed height and weight, echoing the
      four form fields. */
  function BuildResult(form: UserData, heightCm: real, weightKg: real): (r: CalculationResult)
    requires heightCm != 0.0
    ensures
      var a := Assess(heightCm, weightKg);
      && r.imc == ToFixed(a.imc, 2)
      && r.classification == Label(a.band)
      && r.adjustmentType == AdjustmentType(a.adjustment)
      && r.minIdealWeight == ToFixed(a.minIdealWeight, 1)
      && r.maxIdealWeight == ToFixed(a.maxIdealWeight, 1)
      && r.weightToAdjust == AdjustmentNumeral(a.weightToAdjust)
    ensures r.height == form.height && r.weight == form.weight
    ensures r.age == form.age && r.gender == form.gender
    ensures r.weightToAdjust.units >= 0
    ensures 0 <= r.minIdealWeight.units <= r.maxIdealWeight.units
    ensures r.weightToAdjust.units > 0 ==> r.adjustmentType == "ganhar" || r.adjustmentType == "perder"
  {
    var a := Assess(heightCm, weightKg);
    IdealRangeOrdered(heightCm);
    ToFixedMonotone(a.minIdealWeight, a.maxIdealWeight, 1);
    CalculationResult(
      ToFixed(a.imc, 2),
      Label(a.band),
      AdjustmentNumeral(a.weightToAdjust),
      AdjustmentType(a.adjustment),
      ToFixed(a.minIdealWeight, 1),
      ToFixed(a.maxIdealWeight, 1),
      form.height,
      form.weight,
      form.age,
      form.gender)
  }

  /** `calculateIMC` applied to the form. `parseFloat` is the platform's number parser;
      None stands for NaN. */
  function CalculateIMC(form: UserData, parseFloat: string -> Option<real>): (s: Submission)
    ensures s.Blocked? <==> !IsFormValid(form)
    ensures s.NotFinite? <==>
      IsFormValid(form) &&
      (parseFloat(form.height).None? || parseFloat(form.weight).None? || parseFloat(form.height).value == 0.0)
    ensures s.Navigate? ==>
      s.result == BuildResult(form, parseFloat(form.height).value, parseFloat(form.weight).value)
  {
    if form.height == "" || form.weight == "" then
      Blocked
    else
      var hv := parseFloat(form.height);
      var wv := parseFloat(form.weight);
      if hv.None? || wv.None? || hv.value == 0.0 then
        NotFinite
      else
        Navigate(BuildResult(form, hv.value, wv.value))
  }
}
