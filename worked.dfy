// Concrete submissions worked through the model: the printed numerals and the
// card the Result screen then shows.

module WorkedCases {
  import opened HomePage
  import opened ResultPage

  /** 175 cm and 70 kg: BMI 22.86, normal weight, ideal range 56.7 to 76.3 kg,
      nothing to adjust and the congratulations card. */
  lemma Normal175x70(form: UserData)
    ensures
      var r := BuildResult(form, 175.0, 70.0);
      && r.imc == Fixed(2286, 2)
      && r.classification == "Peso normal"
      && r.minIdealWeight == Fixed(567, 1)
      && r.maxIdealWeight == Fixed(763, 1)
      && r.weightToAdjust == Fixed(0, 0)
      && r.adjustmentType == ""
      && Render(Some(r)).congratulations
  {
    assert Square(HeightInMeters(175.0)) == 3.0625;
    assert Imc(175.0, 70.0) == 70.0 / 3.0625;
  }

  /** 160 cm and 45 kg: BMI 17.58, underweight, 2.4 kg to gain, amber card
      pointing upwards. */
  lemma Underweight160x45(form: UserData)
    ensures
      var r := BuildResult(form, 160.0, 45.0);
      && r.imc == Fixed(1758, 2)
      && r.classification == "Abaixo do peso"
      && r.minIdealWeight == Fixed(474, 1)
      && r.maxIdealWeight == Fixed(637, 1)
      && r.weightToAdjust == Fixed(24, 1)
      && r.adjustmentType == "ganhar"
      && Render(Some(r)).recommendation == Some(RecommendationCard(Warning, TrendingUp, GainWeight))
      && Render(Some(r)).highlighted == {UnderweightRow}
  {
    assert Square(HeightInMeters(160.0)) == 2.56;
    assert Imc(160.0, 45.0) == 45.0 / 2.56;
    EngineLabelHighlightsOneRow(Underweight);
  }

  /** 180 cm and 110 kg: BMI 33.95, obesity grade I, 29.3 kg to lose, red card
      pointing downwards and the obesity row highlighted. */
  lemma Obese180x110(form: UserData)
    ensures
      var r := BuildResult(form, 180.0, 110.0);
      && r.imc == Fixed(3395, 2)
      && r.classification == "Obesidade Grau I"
      && r.minIdealWeight == Fixed(599, 1)
      && r.maxIdealWeight == Fixed(807, 1)
      && r.weightToAdjust == Fixed(293, 1)
      && r.adjustmentType == "perder"
      && Render(Some(r)).recommendation == Some(RecommendationCard(Danger, TrendingDown, LoseWeight))
      && Render(Some(r)).highlighted == {ObesityRow}
  {
    assert Square(HeightInMeters(180.0)) == 3.24;
    assert Imc(180.0, 110.0) == 110.0 / 3.24;
    EngineLabelHighlightsOneRow(ObesityI);
  }

  /** 100 cm and 18.49 kg: underweight by 0.01 kg, which prints as "0.0", so the
      congratulations card appears beside the underweight chip. */
  lemma Underweight100x1849(form: UserData)
    ensures
      var r := BuildResult(form, 100.0, 18.49);
      && r.classification == "Abaixo do peso"
      && r.adjustmentType == "ganhar"
      && r.weightToAdjust == Fixed(0, 1)
      && Render(Some(r)).congratulations
      && Render(Some(r)).chipColor == Warning
  {
    assert Square(HeightInMeters(100.0)) == 1.0;
    assert Imc(100.0, 18.49) == 18.49;
  }

  /** 100 cm and 24.96 kg: BMI 24.96 is labelled normal weight with a green chip,
      yet 0.1 kg to lose is recommended. */
  lemma Normal100x2496(form: UserData)
    ensures
      var r := BuildResult(form, 100.0, 24.96);
      && r.classification == "Peso normal"
      && r.adjustmentType == "perder"
      && r.weightToAdjust == Fixed(1, 1)
      && Render(Some(r)).chipColor == Success
      && Render(Some(r)).recommendation == Some(RecommendationCard(Danger, TrendingDown, LoseWeight))
  {
    assert Square(HeightInMeters(100.0)) == 1.0;
    assert Imc(100.0, 24.96) == 24.96;
  }

  /** 100 cm and 24.93 kg: 'perder' by 0.03 kg, which prints as "0.0", so the
      congratulations card appears beside the green 'Peso normal' chip. */
  lemma Normal100x2493(form: UserData)
    ensures
      var r := BuildResult(form, 100.0, 24.93);
      && r.classification == "Peso normal"
      && r.adjustmentType == "perder"
      && r.weightToAdjust == Fixed(0, 1)
      && Render(Some(r)).chipColor == Success
      && Render(Some(r)).congratulations
      && Render(Some(r)).recommendation.None?
  {
    assert Square(HeightInMeters(100.0)) == 1.0;
    assert Imc(100.0, 24.93) == 24.93;
  }
}
