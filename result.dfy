// The Result screen: the guard for a missing record, the lookups from a
// classification label to the chip colour, chip icon and card colour, the rule
// choosing between the recommendation card and the congratulations card, and
// the highlighted row of the WHO table. Layout and styling are not modelled.

module ResultPage {
  import opened HomePage

  /** The Ionic colour names the lookups return. */
  datatype Color = Success | Warning | Danger | Medium

  /** The ionicons the screen picks between. */
  datatype Icon = CheckmarkCircle | WarningIcon | AlertCircle | TrendingUp | TrendingDown

  /** `getClassificationColor`: one explicit case per engine label, 'medium' otherwise. */
  function ClassificationColor(classification: string): (c: Color)
    ensures c == Success <==> classification == Label(Normal)
    ensures c == Warning <==> classification == Label(Underweight) || classification == Label(Overweight)
    ensures c == Danger <==>
      classification == Label(ObesityI) || classification == Label(ObesityII) || classification == Label(ObesityIII)
    ensures c == Medium <==> forall b :: classification != Label(b)
  {
    if classification == "Peso normal" then Success
    else if classification == "Abaixo do peso" then Warning
    else if classification == "Sobrepeso" then Warning
    else if classification == "Obesidade Grau I" then Danger
    else if classification == "Obesidade Grau II" then Danger
    else if classification == "Obesidade Grau III" then Danger
    else Medium
  }

  /** `getClassificationIcon`: the alert icon exactly where the chip is not green or amber. */
  function ClassificationIcon(classification: string): (i: Icon)
    ensures i == CheckmarkCircle <==> ClassificationColor(classification) == Success
    ensures i == WarningIcon <==> ClassificationColor(classification) == Warning
    ensures i == AlertCircle <==> ClassificationColor(classification) in {Danger, Medium}
  {
    if classification == "Peso normal" then CheckmarkCircle
    else if classification == "Abaixo do peso" then WarningIcon
    else if classification == "Sobrepeso" then WarningIcon
    else AlertCircle
  }

  /** `getCardColor`: its declared type admits `undefined` (None), but it always gives a
      colour, the chip's colour with 'danger' in place of 'medium'. */
  function CardColor(classification: string): (r: Option<Color>)
    ensures r.Some? && r.value != Medium
    ensures ClassificationColor(classification) != Medium ==> r.value == ClassificationColor(classification)
    ensures ClassificationColor(classification) == Medium ==> r.value == Danger
  {
    if classification == "Peso normal" then Some(Success)
    else if classification == "Abaixo do peso" then Some(Warning)
    else if classification == "Sobrepeso" then Some(Warning)
    else Some(Danger)
  }

  /** No label the engine produces falls through to the 'medium' default. */
  lemma EngineLabelsHaveColor(b: Band)
    ensures ClassificationColor(Label(b)) != Medium
    ensures CardColor(Label(b)).value == ClassificationColor(Label(b))
  {
  }

  /** For engine output the chip colour follows the BMI: green in [18.5, 25),
      red from 30 up, amber otherwise. */
  lemma ColorFollowsImc(imc: real)
    ensures ClassificationColor(Label(Classify(imc))) == Success <==> 18.5 <= imc < 25.0
    ensures ClassificationColor(Label(Classify(imc))) == Danger <==> imc >= 30.0
    ensures ClassificationColor(Label(Classify(imc))) == Warning <==> imc < 18.5 || 25.0 <= imc < 30.0
  {
  }

  // ---------------------------------------------------------------------------
  // Recommendation and congratulations cards
  // ---------------------------------------------------------------------------

  datatype Heading = GainWeight | LoseWeight

  /** The recommendation card's colour, icon and heading. */
  datatype RecommendationCard = RecommendationCard(color: Color, icon: Icon, heading: Heading)

  function Recommendation(adjustmentType: string): (card: RecommendationCard)
    ensures card.color == Warning <==> adjustmentType == "ganhar"
    ensures card.icon == TrendingUp <==> adjustmentType == "ganhar"
    ensures card.heading == GainWeight <==> adjustmentType == "ganhar"
    ensures card.color in {Warning, Danger} && card.icon in {TrendingUp, TrendingDown}
  {
    if adjustmentType == "ganhar" then RecommendationCard(Warning, TrendingUp, GainWeight)
    else RecommendationCard(Danger, TrendingDown, LoseWeight)
  }

  /** Two adjustment types that agree on being 'ganhar' give the same card. */
  lemma RecommendationOnlyTestsGain(t: string, u: string)
    requires (t == "ganhar") == (u == "ganhar")
    ensures Recommendation(t) == Recommendation(u)
  {
  }

  // ---------------------------------------------------------------------------
  // WHO table
  // ---------------------------------------------------------------------------

  /** The four rows of the table on the Result screen. */
  datatype Row = UnderweightRow | NormalRow | OverweightRow | ObesityRow

  /** sub occurs in s starting at position i. */
  predicate OccursAt(s: string, sub: string, i: int)
  {
    0 <= i <= |s| - |sub| && s[i..i + |sub|] == sub
  }

  /** `String.prototype.includes`: sub occurs in s at some position. */
  function Includes(s: string, sub: string): (r: bool)
    ensures r <==> exists i :: OccursAt(s, sub, i)
    decreases |s|
  {
    if |s| < |sub| then false
    else if s[..|sub|] == sub then assert OccursAt(s, sub, 0); true
    else
      OccursShift(s, sub);
      Includes(s[1..], sub)
  }

  /** An occurrence in the tail is an occurrence one position later in the whole. */
  lemma OccursShift(s: string, sub: string)
    requires |s| >= 1 && !OccursAt(s, sub, 0)
    ensures (exists i :: OccursAt(s[1..], sub, i)) <==> (exists i :: OccursAt(s, sub, i))
  {
    forall i | OccursAt(s[1..], sub, i)
      ensures OccursAt(s, sub, i + 1)
    {
      assert s[1..][i..i + |sub|] == s[i + 1..i + 1 + |sub|];
    }
    forall i | OccursAt(s, sub, i)
      ensures OccursAt(s[1..], sub, i - 1)
    {
      assert s[1..][i - 1..i - 1 + |sub|] == s[i..i + |sub|];
    }
  }

  /** A string without a capital O cannot contain "Obesidade". */
  lemma NoCapitalO(s: string)
    requires 'O' !in s
    ensures !Includes(s, "Obesidade")
  {
    forall i | 0 <= i <= |s| - 9
      ensures !OccursAt(s, "Obesidade", i)
    {
      assert s[i..i + 9][0] == s[i];
    }
  }

  /** The row-highlight conditions of the table: the first three rows light up for
      their own label, the obesity row for any label containing "Obesidade". */
  function Highlighted(classification: string, row: Row): (on: bool)
    ensures row != ObesityRow ==> (on <==> exists b :: RowOf(b) == row && classification == Label(b))
    ensures row == ObesityRow ==> (on <==> exists i :: OccursAt(classification, "Obesidade", i))
  {
    match row
    case UnderweightRow => assert RowOf(Underweight) == row; classification == "Abaixo do peso"
    case NormalRow => assert RowOf(Normal) == row; classification == "Peso normal"
    case OverweightRow => assert RowOf(Overweight) == row; classification == "Sobrepeso"
    case ObesityRow => Includes(classification, "Obesidade")
  }

  function HighlightedRows(classification: string): (rows: set<Row>)
    ensures forall row :: row in rows <==> Highlighted(classification, row)
  {
    (if Highlighted(classification, UnderweightRow) then {UnderweightRow} else {}) +
    (if Highlighted(classification, NormalRow) then {NormalRow} else {}) +
    (if Highlighted(classification, OverweightRow) then {OverweightRow} else {}) +
    (if Highlighted(classification, ObesityRow) then {ObesityRow} else {})
  }

  /** The table row that covers a band: the three obesity grades share one row. */
  function RowOf(b: Band): Row
  {
    match b
    case Underweight => UnderweightRow
    case Normal => NormalRow
    case Overweight => OverweightRow
    case _ => ObesityRow
  }

  /** Every engine label highlights exactly one row, the one covering its band. */
  lemma EngineLabelHighlightsOneRow(b: Band)
    ensures HighlightedRows(Label(b)) == {RowOf(b)}
  {
    match b
    case Underweight => NoCapitalO(Label(b));
    case Normal => NoCapitalO(Label(b));
    case Overweight => NoCapitalO(Label(b));
    case _ => assert OccursAt(Label(b), "Obesidade", 0);
  }

  // ---------------------------------------------------------------------------
  // The screen
  // ---------------------------------------------------------------------------

  /** `parseFloat` of a fixed-point numeral. */
  function FixedValue(f: Fixed): (v: real)
    ensures v * Pow10(f.digits) as real == f.units as real
  {
    DivideCompare(f.units as real, Pow10(f.digits) as real, 0.0);
    f.units as real / Pow10(f.digits) as real
  }

  /** The numeral's value has the sign of its digits. */
  lemma FixedValueSign(f: Fixed)
    ensures FixedValue(f) > 0.0 <==> f.units > 0
    ensures FixedValue(f) == 0.0 <==> f.units == 0
    ensures FixedValue(f) < 0.0 <==> f.units < 0
  {
    DivideCompare(f.units as real, Pow10(f.digits) as real, 0.0);
  }

  /** What the Result component renders: the error screen when no record arrived,
      otherwise the parts of the result screen that depend on the record. */
  datatype Screen =
    | NotFound
    | Shown(
        cardColor: Option<Color>,
        chipColor: Color,
        chipIcon: Icon,
        recommendation: Option<RecommendationCard>,
        congratulations: bool,
        highlighted: set<Row>)

  /** The Result component for the navigation state it receives. */
  function Render(state: Option<CalculationResult>): (s: Screen)
    ensures s.NotFound? <==> state.None?
    ensures s.Shown? ==> (s.recommendation.Some? <==> state.value.weightToAdjust.units > 0)
    ensures s.Shown? ==> (s.congratulations <==> state.value.weightToAdjust.units == 0)
    ensures s.Shown? ==> !(s.recommendation.Some? && s.congratulations)
    ensures s.Shown? && state.value.weightToAdjust.units >= 0 ==> s.recommendation.Some? != s.congratulations
  {
    match state
    case None => NotFound
    case Some(r) =>
      var adjust := FixedValue(r.weightToAdjust);
      FixedValueSign(r.weightToAdjust);
      Shown(
        CardColor(r.classification),
        ClassificationColor(r.classification),
        ClassificationIcon(r.classification),
        if adjust > 0.0 then Some(Recommendation(r.adjustmentType)) else None,
        adjust == 0.0,
        HighlightedRows(r.classification))
  }

  /** Everything the screen shows for a record the engine built: a colour from an
      explicit case, exactly one of the two cards, a recommendation that points the
      way the engine said, and exactly one highlighted row. */
  lemma EngineResultScreen(form: UserData, heightCm: real, weightKg: real)
    requires heightCm != 0.0
    ensures
      var a := Assess(heightCm, weightKg);
      var s := Render(Some(BuildResult(form, heightCm, weightKg)));
      && s.Shown?
      && s.chipColor != Medium
      && s.cardColor == Some(s.chipColor)
      && s.recommendation.Some? != s.congratulations
      && (s.recommendation.Some? ==> a.adjustment != NoChange)
      && (s.recommendation.Some? ==> (s.recommendation.value.heading == GainWeight <==> a.imc < 18.5))
      && s.highlighted == {RowOf(a.band)}
  {
    var a := Assess(heightCm, weightKg);
    EngineLabelsHaveColor(a.band);
    EngineLabelHighlightsOneRow(a.band);
  }

  /** The whole flow from the button to the screen: when the form is incomplete nothing
      is shown; otherwise a finite computation reaches a screen with exactly one card. */
  lemma SubmitThenRender(form: UserData, parseFloat: string -> Option<real>)
    ensures !IsFormValid(form) ==> CalculateIMC(form, parseFloat) == Blocked
    ensures CalculateIMC(form, parseFloat).Navigate? ==>
      var s := Render(Some(CalculateIMC(form, parseFloat).result));
      s.Shown? && s.chipColor != Medium && s.recommendation.Some? != s.congratulations
  {
    if CalculateIMC(form, parseFloat).Navigate? {
      EngineResultScreen(form, parseFloat(form.height).value, parseFloat(form.weight).value);
    }
  }

  /** An amount to gain or lose below 0.05 kg prints as "0.0": the congratulations card
      is shown although the engine set a direction. */
  lemma TinyAdjustmentCongratulates(form: UserData, heightCm: real, weightKg: real)
    requires heightCm != 0.0
    requires Assess(heightCm, weightKg).adjustment != NoChange
    requires Scaled(Assess(heightCm, weightKg).weightToAdjust, 1) < 0.5
    ensures BuildResult(form, heightCm, weightKg).adjustmentType != ""
    ensures Render(Some(BuildResult(form, heightCm, weightKg))).congratulations
    ensures Render(Some(BuildResult(form, heightCm, weightKg))).recommendation.None?
  {
    var a := Assess(heightCm, weightKg);
    ToFixedZero(a.weightToAdjust, 1);
  }
}
