# BMI calculator (App-Imc-ionic) in Dafny

This project models the two screens of the Ionic/React BMI calculator.

On the **Home** screen:
- The user fills in height (cm), weight (kg), age and gender.
- The "Calcular IMC" button is enabled only while height and weight are both non-empty.
- `calculateIMC` computes the body-mass index `weight / (height/100)²`. It classifies the index into the six bands of the WHO adult table. It computes the ideal-weight range `18.5·h²` to `24.9·h²` and decides whether to gain weight, lose weight or do nothing, and by how much.
- It then hands a record of `toFixed` numerals to the Result screen.

On the **Result** screen:
- When no record arrived, an error screen is shown.
- Otherwise label lookups choose the chip colour, the chip icon and the card colour.
- The parsed adjustment chooses between the recommendation card and the congratulations card.
- One row of the WHO table is highlighted.

Modules and files:
- `HomePage` (`home.dfy`): the form record and its change handler, a class `HomeForm` whose method updates the `formData` field in place. It also holds the BMI engine as pure functions over exact reals, the `toFixed` numeral and the submission.
- `ResultPage` (`result.dfy`): the lookups, `String.prototype.includes`, the row highlight and the rendered screen. It also proves the end-to-end lemmas from a submitted form to the screen.
- `WorkedCases` (`worked.dfy`): concrete submissions computed through the model.

Two behaviours of the code are stated as lemmas:
- **Two different thresholds.** The classification thresholds and the adjustment threshold differ (`< 25` against `> 24.9`). A BMI in (24.9, 25) is therefore labelled "Peso normal" with a green chip, yet the user is told to lose weight (`HomePage.NormalYetLose`, `WorkedCases.Normal100x2496`).
- **A tiny adjustment.** A positive adjustment below 0.05 kg prints as `"0.0"`. Its `parseFloat` is 0, so the congratulations card appears. For a gain it appears next to the 'Abaixo do peso' chip. For a loss it appears next to the green 'Peso normal' chip, at any height above about 71 cm: an overweight chip would need the BMI to be at least 25 while the weight is within 0.05 kg of 24.9·h² (`ResultPage.TinyAdjustmentCongratulates`, `WorkedCases.Underweight100x1849`, `WorkedCases.Normal100x2493`).

For 175 cm and 70 kg, the code prints a maximum ideal weight of `76.3`, because 24.9 × 3.0625 = 76.25625 rounds up (`WorkedCases.Normal175x70`).

## Model

| member | source | states |
|---|---|---|
| HomePage.EventValue | appImc/src/pages/Home/Home.tsx:58 | the event's value when it carries one, the empty string when it carries none |
| HomePage.IsFormValid | appImc/src/pages/Home/Home.tsx:120 | the form is valid exactly when every required field (height and weight) is non-empty |
| HomePage.WithField | appImc/src/pages/Home/Home.tsx:59-62 | the updated record holds the new value under the named key and every other key keeps its old value |
| HomePage.HomeForm.constructor | appImc/src/pages/Home/Home.tsx:49-54 | the form starts empty with gender 'masculino', so the calculate button starts disabled |
| HomePage.HomeForm.HandleInputChange | appImc/src/pages/Home/Home.tsx:57-63 | only the named field of `formData` changes; it receives the event value, or '' when the event carries none (through `EventValue`); editing age or gender never changes whether the form is valid |
| HomePage.Classify | appImc/src/pages/Home/Home.tsx:80-85 | the label's band contains the imc (half-open intervals [lower, upper)) and no other band does |
| HomePage.ClassifyMonotone | appImc/src/pages/Home/Home.tsx:80-85 | a larger imc never gets a lower band |
| HomePage.BandsAdjacent | appImc/src/pages/Home/Home.tsx:80-85 | consecutive bands meet without gap or overlap, so the banding is total |
| HomePage.BoundaryGoesUp | appImc/src/pages/Home/Home.tsx:80-85 | the boundary values 18.5, 25, 30, 35 and 40 fall into the higher band |
| HomePage.SquarePositive | appImc/src/pages/Home/Home.tsx:76 | the squared height in metres is non-negative, and positive for a non-zero height |
| HomePage.HeightInMeters | appImc/src/pages/Home/Home.tsx:73 | the height in metres times 100 gives back the height in centimetres |
| HomePage.Imc | appImc/src/pages/Home/Home.tsx:73-76 | for a non-zero height, the imc is positive, zero or negative exactly as the weight is |
| HomePage.ImcCompare | appImc/src/pages/Home/Home.tsx:73-76 | imc times the squared height is the weight; the imc is below or above a threshold c exactly when the weight is below or above c·h² |
| HomePage.MinIdealWeight | appImc/src/pages/Home/Home.tsx:88 | 18.5·h² is never negative, and positive for a non-zero height |
| HomePage.MaxIdealWeight | appImc/src/pages/Home/Home.tsx:89 | 24.9·h² is never negative, and positive for a non-zero height |
| HomePage.IdealBoundsImc | appImc/src/pages/Home/Home.tsx:87-89 | the minimum ideal weight has BMI exactly 18.5 and the maximum exactly 24.9 |
| HomePage.IdealRangeOrdered | appImc/src/pages/Home/Home.tsx:88-89 | 0 <= minIdealWeight <= maxIdealWeight for every height, strictly ordered for a non-zero height |
| HomePage.IdealRangeMeaning | appImc/src/pages/Home/Home.tsx:87-89 | a weight lies in [minIdealWeight, maxIdealWeight] exactly when its imc lies in [18.5, 24.9] |
| HomePage.Assess | appImc/src/pages/Home/Home.tsx:76-100 | gain exactly when imc < 18.5, with weightToAdjust = minIdeal - weight > 0; lose exactly when imc > 24.9, with weightToAdjust = weight - maxIdeal > 0; otherwise weightToAdjust = 0 and the weight is within the ideal range |
| HomePage.NormalYetLose | appImc/src/pages/Home/Home.tsx:80-99 | an imc strictly between 24.9 and 25 is labelled 'Peso normal' and still gets 'perder' with a positive amount |
| HomePage.AdjustmentAgreesWithBand | appImc/src/pages/Home/Home.tsx:80-100 | 'ganhar' exactly for the underweight band, 'perder' for every band from overweight up, and no adjustment only inside the normal band |
| ResultPage.FixedValue | appImc/src/pages/Result/Result.tsx:125 | the parsed value of a numeral times 10 to the number of its fraction digits gives back its digits |
| ResultPage.FixedValueSign | appImc/src/pages/Result/Result.tsx:125 | the parsed value of a printed numeral has the sign of its digits |
| HomePage.RoundHalfAway | appImc/src/pages/Home/Home.tsx:104-109 | the result is the integer nearest to its argument, with halves going away from zero |
| HomePage.ToFixed | appImc/src/pages/Home/Home.tsx:104-109 | the numeral has the requested number of digits, is within half a unit of its last digit of x, a half going away from zero, and has the sign of x |
| HomePage.RoundZero | appImc/src/pages/Home/Home.tsx:106 | a non-negative value rounds to 0 exactly when it is below one half |
| HomePage.ToFixedZero | appImc/src/pages/Home/Home.tsx:106 | a non-negative amount prints as zero exactly when it is below half a unit of the last digit |
| HomePage.RoundMonotone | appImc/src/pages/Home/Home.tsx:108-109 | rounding keeps the order of non-negative values |
| HomePage.ToFixedMonotone | appImc/src/pages/Home/Home.tsx:108-109 | printing keeps the order of non-negative values |
| HomePage.AdjustmentNumeral | appImc/src/pages/Home/Home.tsx:106 | a non-positive amount is sent as the literal '0' and a positive amount as its one-digit toFixed numeral; the printed adjustment is never negative, and it is non-zero only for a positive amount |
| HomePage.BuildResult | appImc/src/pages/Home/Home.tsx:103-114 | each field is the printed imc, label, adjustment and ideal bounds of the assessment, and the four form fields are echoed unchanged; the printed bounds are ordered, and a non-zero adjustment always comes with 'ganhar' or 'perder' |
| HomePage.CalculateIMC | appImc/src/pages/Home/Home.tsx:65-118 | nothing is computed exactly when height or weight is empty, which is the disabled-button condition; non-numeric input or a zero height leaves the reals; otherwise the record built from the parsed numbers is handed over |
| ResultPage.ClassificationColor | appImc/src/pages/Result/Result.tsx:95-105 | success exactly for 'Peso normal', warning exactly for 'Abaixo do peso' and 'Sobrepeso', danger exactly for the three obesity labels, medium exactly for a string that is no engine label |
| ResultPage.ClassificationIcon | appImc/src/pages/Result/Result.tsx:107-114 | checkmark exactly where the chip is success, warning exactly where it is warning, alert circle for every other string, including the obesity labels |
| ResultPage.CardColor | appImc/src/pages/Result/Result.tsx:116-123 | always a colour, never undefined or medium; it agrees with the chip colour and gives danger in place of medium |
| ResultPage.EngineLabelsHaveColor | appImc/src/pages/Result/Result.tsx:96-102 | no engine label reaches the 'medium' default, and for engine labels the card colour equals the chip colour |
| ResultPage.ColorFollowsImc | appImc/src/pages/Result/Result.tsx:95-105 | for engine output the chip is green exactly for an imc in [18.5, 25), red exactly from 30 up, amber otherwise |
| ResultPage.Recommendation | appImc/src/pages/Result/Result.tsx:172-184 | warning colour, upward icon and 'Ganhar Peso' heading exactly when the type is 'ganhar'; danger, downward and 'Perder Peso' otherwise |
| ResultPage.RecommendationOnlyTestsGain | appImc/src/pages/Result/Result.tsx:172-184 | two adjustment types that agree on being 'ganhar' produce the same card |
| ResultPage.Includes | appImc/src/pages/Result/Result.tsx:277 | true exactly when the substring occurs at some position |
| ResultPage.NoCapitalO | appImc/src/pages/Result/Result.tsx:277 | a string without a capital O never matches the obesity row |
| ResultPage.Highlighted | appImc/src/pages/Result/Result.tsx:250-281 | each of the first three rows lights up exactly for the label of its own band; the obesity row lights up exactly when the label contains "Obesidade" |
| ResultPage.HighlightedRows | appImc/src/pages/Result/Result.tsx:250-281 | a row is in the set exactly when its highlight condition holds |
| ResultPage.EngineLabelHighlightsOneRow | appImc/src/pages/Result/Result.tsx:253-277 | each engine label highlights exactly one row, the one for its band; all three obesity grades highlight the obesity row |
| ResultPage.Render | appImc/src/pages/Result/Result.tsx:68-200 | the error screen exactly when no record arrived; the recommendation card exactly when the parsed adjustment is positive, the congratulations card exactly when it is zero, never both, and exactly one for a non-negative adjustment |
| ResultPage.EngineResultScreen | appImc/src/pages/Result/Result.tsx:140-277 | for a record the engine built: the chip has an explicit colour equal to the card colour, exactly one card is shown, a recommendation points the way the imc says, and exactly one row is highlighted |
| ResultPage.SubmitThenRender | appImc/src/pages/Home/Home.tsx:65-118 | an incomplete form never navigates; a navigation always reaches a screen with an explicit chip colour and exactly one card |
| ResultPage.TinyAdjustmentCongratulates | appImc/src/pages/Result/Result.tsx:171-200 | when the engine sets a direction but the amount is below half of 0.1 kg, the congratulations card is shown and no recommendation |
| WorkedCases.Normal175x70 | appImc/src/pages/Home/Home.tsx:65-118 | 175 cm, 70 kg gives imc "22.86", 'Peso normal', ideal range "56.7" to "76.3", adjustment "0" and the congratulations card |
| WorkedCases.Underweight160x45 | appImc/src/pages/Home/Home.tsx:65-118 | 160 cm, 45 kg gives imc "17.58", 'Abaixo do peso', range "47.4" to "63.7", 'ganhar' "2.4", the amber upward card and the underweight row |
| WorkedCases.Obese180x110 | appImc/src/pages/Home/Home.tsx:65-118 | 180 cm, 110 kg gives imc "33.95", 'Obesidade Grau I', range "59.9" to "80.7", 'perder' "29.3", the red downward card and the obesity row |
| WorkedCases.Underweight100x1849 | appImc/src/pages/Home/Home.tsx:94-106 | 100 cm, 18.49 kg is underweight with 'ganhar', but the adjustment prints "0.0" and the congratulations card is shown |
| WorkedCases.Normal100x2493 | appImc/src/pages/Home/Home.tsx:80-106 | 100 cm, 24.93 kg gets 'perder' by 0.03 kg, which prints "0.0", so the green 'Peso normal' chip comes with the congratulations card |
| WorkedCases.Normal100x2496 | appImc/src/pages/Home/Home.tsx:80-99 | 100 cm, 24.96 kg is 'Peso normal' with a green chip, but 'perder' "0.1" is recommended |

## Left out

- JSX and Ionic rendering: layout, styles, the row background colours and the data card that echoes height, weight, age and gender are not modelled. Only the values the lookups and conditions choose are.
- Navigation and browser effects: `history.push`, `history.replace`, `handleGoBack` with its `history.length` test, and `alert` are not modelled. A blocked submission is the `Blocked` outcome, and navigation is the `Navigate` outcome carrying the record.
- `appImc/capacitor.config.ts` holds build configuration only, so it is not part of this model.
- React state batching: `setFormData` with an updater is modelled as an immediate assignment to the `formData` field.
- `parseFloat` is a parameter of `CalculateIMC` from strings to an optional real, where None stands for NaN. Its parsing rules (leading numeric prefix, whitespace) are not modelled. On the Result screen, `parseFloat` of a printed numeral is its exact value (`FixedValue`).
- HomePage.CalculateIMC: IEEE-754 doubles are replaced by exact reals. When a number does not parse or the height is zero, the code still navigates, and the model stops at the `NotFinite` outcome instead. In the code, a NaN or +Infinity BMI fails every `<` test of the classification and falls through to 'Obesidade Grau III'. A +Infinity BMI (a zero height with a positive weight) then passes the `> 24.9` test and gets 'perder' with the whole weight as the amount, printed as a number. A NaN BMI gets the adjustment '0', so the code shows the congratulations card next to a red obesity chip. A -Infinity BMI (a negative weight over a zero height) is 'Abaixo do peso' with 'ganhar' and the negated weight as the amount.
- HomePage.ToFixed: rounds the exact real value half away from zero. JavaScript rounds the double nearest to it, so results at exact ties in decimal (such as 1.005) can differ. From 1e21 up, `toFixed` prints exponent notation, which the numeral model does not. A negative value that rounds to zero prints with its sign ("-0.00"), which `Fixed(0, digits)` cannot carry; only a typed negative weight reaches this, and only the displayed imc changes.
- Age and gender are echoed into the record but take part in no computation; their presentation on the Result screen is not modelled.
