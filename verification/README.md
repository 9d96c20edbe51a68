# Student performance predictor — a verified model of the encode-and-label pipeline

The predictor is a single Streamlit script. A student fills in a form:
- gender, age band, disability, region and highest education, each chosen from a fixed list;
- studied credits;
- the number of previous attempts;
- total platform clicks;
- an IMD band.

The script derives an engagement level from the click count and shows it with an emoji. When the predict button is pressed it does four things:
1. it builds a one-row table of 21 named columns, `input_data`;
2. it aligns that table with the classifier's own column list using `reindex(columns=feature_names_in_, fill_value=0)`;
3. it asks the pre-trained classifier for a label;
4. it shows the label through `label_map.get(prediction, prediction)`.

This project models that pipeline in Dafny, one module per stage:

- `Results`: the `Option` and `Result` wrappers.
- `Domains`: the input lists of the form as enumerations, each value with the exact string its widget returns, and `Profile`, one filled-in form.
- `Engagement`: `calculate_engagement` and `emoji_map`.
- `Frames`: a one-row DataFrame as a sequence of named cells, with pandas' `reindex`.
- `Encoding`: the `input_data` dictionary. Every indicator is the same string comparison the script performs, so the indicators that can never be set are visible in the model.
- `Labels`: `label_map.get`, and Python's `str` of an integer label.
- `Predictor`: the whole predict action. The classifier appears in it as a value carrying its feature names and an arbitrary `predict` function.

## Model

| member | source | states |
|---|---|---|
| `Domains.GenderDomain` | app.py:26 | every gender label is one of the radio's options, every option is some gender, and distinct genders have distinct labels |
| `Domains.AgeBandDomain` | app.py:22 | the age band labels are exactly `age_bands`, one per band, in list order |
| `Domains.DisabilityDomain` | app.py:28 | the disability labels are exactly the radio's two options, one per value |
| `Domains.RegionDomain` | app.py:20 | the region labels are exactly `regions`, one per region, in list order |
| `Domains.EducationDomain` | app.py:21 | the education labels are exactly `education_levels`, one per level, in list order |
| `Domains.DefaultProfile` | app.py:26-34 | the form's defaults are within the widgets' ranges: the first option of every list, 0 attempts, 1000 clicks, IMD band 1 |
| `Engagement.CalculateEngagement` | app.py:42-50 | the level's rank is the number of the bounds 100, 1000 and 10000 that the clicks lie strictly above |
| `Engagement.EngagementBrackets` | app.py:42-50 | each level is returned exactly for the clicks in its bracket (≤100, 101-1000, 1001-10000, >10000), in both directions |
| `Engagement.BoundariesFallLow` | app.py:43-48 | the boundaries 100, 1000 and 10000 fall in the lower bracket, and one more click moves up a level |
| `Engagement.EngagementMonotone` | app.py:42-50 | more clicks never give a lower level |
| `Engagement.ExceededMonotone` | app.py:43-49 | the count of bounds lying below the clicks never decreases as the clicks grow |
| `Engagement.LevelNamesDistinct` | app.py:44-50 | the four level strings are pairwise distinct |
| `Engagement.EmojiLookupTotal` | app.py:56-62 | `emoji_map[engagement_level]` cannot fail: the map's keys are exactly the level names |
| `Frames.LookupFinds` | app.py:94 | finding a label in a row fails exactly when the label is not a column; what it finds is stored under that label |
| `Frames.LookupAt` | app.py:94 | in a row without duplicate labels, looking up a column's label finds that column's value |
| `Frames.Align` | app.py:94 | the aligned row's columns are the target names in order; each holds the old value under that name or the fill value 0 |
| `Frames.Reindex` | app.py:94 | succeeds exactly when the row's labels are distinct or already equal the target names; a row whose labels equal the target comes back unchanged; otherwise the columns are the target names in order, kept columns keep their values, missing ones hold 0 |
| `Frames.ReindexLookup` | app.py:94 | after reindexing, a dropped name is absent, a kept name gives its old value, and a new name gives 0 |
| `Frames.AlignedRowIsFixed` | app.py:94 | aligning a row with distinct labels against its own labels rebuilds it unchanged, so pandas' shortcut for an already-aligned row agrees with the general alignment |
| `Frames.ReindexIdempotent` | app.py:94 | whenever reindexing succeeds, reindexing its result against the same names changes nothing |
| `Frames.RepeatedLabelCases` | app.py:94 | a repeated target name is accepted and gives a row that a second reindex against the same names hands back unchanged; a row with a repeated label cannot be aligned with a different list of names |
| `Encoding.Position` | app.py:69-91 | every key of the dictionary sits at one position of its insertion order |
| `Encoding.ColumnNameInjective` | app.py:70-90 | distinct dictionary keys are distinct column labels |
| `Encoding.FeaturesDistinct` | app.py:70-90 | no key occurs twice in the dictionary's order |
| `Encoding.ColumnNamesDistinct` | app.py:70-90 | distinct keys give pairwise distinct column labels |
| `Encoding.EncodedColumnsDistinct` | app.py:69-93 | the encoded row never has two columns with one label, so it can be reindexed |
| `Encoding.FeatureValue` | app.py:70-90 | the value stored under a key is a boolean exactly for the seventeen indicator keys and a number for the four numeric ones |
| `Encoding.Encode` | app.py:69-93 | `input_data` as written becomes a row whose columns are the dictionary's 21 labels in insertion order |
| `Encoding.EncodeIntended` | app.py:69-93 | the corrected dictionary has the same 21 columns in the same order |
| `Encoding.EncodeWith` | app.py:69-93 | the encoded row's columns are the dictionary's 21 labels, in insertion order |
| `Encoding.LevelComparisons` | app.py:76-78 | each engagement comparison is true for exactly one level |
| `Encoding.RegionComparisons` | app.py:79-84 | each region comparison is true for exactly one region |
| `Encoding.EducationComparisons` | app.py:85-88 | two education comparisons are true for exactly their level; 'No Formal quals' and 'HE Qualification' are true for none |
| `Encoding.AgeComparisons` | app.py:89-90 | '35-55' is true for exactly that band; '55<=' is true for none |
| `Encoding.EngagementValue` | app.py:76-78 | the value under an engagement key is true exactly when the clicks fall in that level |
| `Encoding.RegionValue` | app.py:79-84 | the value under a region key is true exactly for that region |
| `Encoding.EducationValue` | app.py:85-88 | the value under an education key is true exactly for its own level, and only for the two levels whose literal is an option |
| `Encoding.AgeValues` | app.py:89-90 | `age_band_35-55` holds exactly for 35-55, and `age_band_>55` is always false |
| `Encoding.EncodedLookup` | app.py:69-93 | looking up a key's label in the encoded row finds the value stored under that key |
| `Encoding.LevelFeature` | app.py:76-78 | every level except the Low baseline has an engagement indicator |
| `Encoding.RegionFeature` | app.py:79-84 | every region has a region indicator |
| `Encoding.EducationFeature` | app.py:85-88 | every education level has an education indicator |
| `Encoding.AgeFeature` | app.py:89-90 | every age band except the 0-35 baseline has an age indicator |
| `Encoding.OnlySetAtMostOne` | app.py:76-90 | in a group where only one indicator is set, no two indicators are both set |
| `Encoding.NumericPassthrough` | app.py:70-73 | the four numeric columns hold the answers unchanged |
| `Encoding.BinaryIndicators` | app.py:74-75 | `gender_M` is set exactly for Male; `disability_Y` is set exactly for Yes |
| `Encoding.EngagementIndicator` | app.py:76-78 | an engagement indicator is set exactly when the clicks fall in its level |
| `Encoding.EngagementIndicators` | app.py:76-78 | no engagement indicator is set exactly when the level is Low; otherwise only the level's own indicator is set |
| `Encoding.RegionIndicator` | app.py:79-84 | a region indicator is set exactly for its region |
| `Encoding.RegionOneHot` | app.py:79-84 | for every region exactly one region indicator is set, the one named after it |
| `Encoding.EducationIndicator` | app.py:85-88 | an education indicator is set exactly for its own level, and never for No Formal or Higher Education |
| `Encoding.EducationIndicators` | app.py:85-88 | at most one education indicator is set: the answer's own for the two recognised levels, none otherwise |
| `Encoding.AgeIndicators` | app.py:89-90 | `age_band_>55` is never set; `age_band_35-55` is set exactly for 35-55 |
| `Encoding.IntendedEducationValue` | app.py:85-88 | with the widget's own strings, the value under each education key is true exactly for its level |
| `Encoding.IntendedAgeValue` | app.py:89-90 | with '>55', the value under each age key is true exactly for its band |
| `Encoding.IntendedEducationIndicator` | app.py:85-88 | with the widget's own strings, each education indicator is set exactly for its level |
| `Encoding.IntendedAgeIndicator` | app.py:89-90 | with '>55', each age indicator is set exactly for its band |
| `Encoding.IntendedEducationOneHot` | app.py:85-88 | with the widget's own strings, every level sets exactly its own indicator |
| `Encoding.IntendedAgeOneHot` | app.py:89-90 | with '>55', every band but 0-35 sets exactly its own indicator, and 0-35 sets none |
| `Encoding.ExampleProfile` | app.py:26-34 | the worked example is a form the widgets accept |
| `Encoding.ExampleEncoding` | app.py:69-91 | for the example (London, Higher Education Qualification, 500 clicks) exactly `gender_M`, `engagement_level_Moderate` and `region_London Region` are set; the Higher Education indicator is set only with the corrected literal |
| `Labels.LabelMapGet` | app.py:98-103 | 0 maps to the fail text, 1 to the pass text, and any other label comes back unchanged |
| `Labels.NatDigits` | app.py:103 | the decimal form of a natural number is a non-empty string of digits with no leading zero; it starts with '0' only for 0 |
| `Labels.DecimalString` | app.py:103 | Python's `str` of an integer is in canonical form and starts with '-' exactly for a negative integer |
| `Labels.CanonicalNatUnique` | app.py:103 | a canonical digit string is the decimal form of the number it denotes |
| `Labels.CanonicalDecimalUnique` | app.py:103 | a canonical decimal string that reads back as a label is that label's `str`, so canonical form and read-back together pin the text |
| `Labels.NatDigitsRoundTrip` | app.py:103 | reading back the decimal digits of a natural number gives that number |
| `Labels.DecimalRoundTrip` | app.py:103 | reading back Python's `str` of any integer label gives that label |
| `Labels.ShownText` | app.py:98-103 | the rendered text is the fail text exactly for 0 and the pass text exactly for 1; any other label gives a canonical decimal string |
| `Labels.ShownTextCases` | app.py:98-103 | the result shows the fail text for 0, the pass text for 1, and otherwise the label's canonical decimal form, which reads back as the label |
| `Labels.OutcomeTextsAreNotNumbers` | app.py:99-100 | neither outcome text reads as an integer |
| `Labels.ShownTextInjective` | app.py:98-103 | different labels are never shown as the same text |
| `Predictor.EncodedRowReindexes` | app.py:93-94 | reindexing the encoded row never raises, whatever the classifier's feature list |
| `Predictor.Classify` | app.py:94-103 | the classifier sees its own feature names in its own order, each holding the encoded value or 0; the label is the classifier's answer for that row; the text is the fail or pass text for 0 and 1, and otherwise the label's canonical decimal form, which reads back as it |
| `Predictor.Predict` | app.py:67-103 | the predict action as written: aligned input from the dictionary, the classifier's label, the pass or fail text for 0 and 1, and for any other label its canonical decimal form, which reads back as it |
| `Predictor.PredictIntended` | app.py:67-103 | the same action over the corrected encoding: aligned input from it, the classifier's label for that input, and the same rendering: fail or pass text for 0 and 1, otherwise the label's canonical decimal form, which reads back as it |
| `Predictor.MatchingFeaturesPassRowUnchanged` | app.py:93-96 | when the classifier's feature list is exactly the dictionary's labels, it receives the dictionary row unchanged |
| `Predictor.PredictInputIsAligned` | app.py:94-96 | the classifier's input is already aligned: reindexing it again against the feature list changes nothing, whatever the names |

## Left out

- The Streamlit page is not modelled, because it is presentation: widgets, sidebar, title, divider, metric, success box, CSS and the IMD explanation (app.py:9-17, 36-38, 55, 62-64, 67, 103, 105-142). The widgets appear only through the values they can return, in `Domains`.
- Loading the classifier with `joblib.load` (app.py:7) is file input. The classifier is a parameter of the predict action instead: its `feature_names_in_` and an arbitrary `predict` from an aligned row to an integer label.
- `model.predict(df_input)[0]` (app.py:96) is an opaque trained model. It is an uninterpreted function returning one integer label; nothing is claimed about which label it returns.
- The advisory shown for Ireland and Scotland (app.py:36-38) is UI text with no effect on the prediction.
- pandas dtypes are abstracted. A column holds either an integer or a boolean. Bool-versus-int coercion and `fill_value=0` being an integer in a boolean column are not modelled.
- `Frames.Reindex`: when a row with a repeated label is reindexed against names other than its own labels, the model records only that pandas raises, not the exception's type or message.
- The form's numeric ranges (`ValidProfile`) are not a precondition of the pipeline, because the encoding and the classifier call do not depend on them. They are stated for the defaults and the worked example.

## Findings

Three comparisons in `input_data` use a literal that their widget never returns, so the indicator they feed is always false. The main pipeline (`Encode`, `Predict`) keeps the comparisons as written, because that is what the program does. `EncodeIntended` and `PredictIntended` use the widget's own strings, and the one-hot property is proved for them.

| source | as written | input that shows it | evidently intended | confidence | as-written member | corrected member |
|---|---|---|---|---|---|---|
| app.py:85 | `highest_education == 'No Formal quals'` | highest education 'No Formal qualifications' leaves `highest_education_No Formal Qualifications` false | compare with 'No Formal qualifications' | high; not executed | `Encoding.EducationIndicator` | `Encoding.IntendedEducationOneHot` |
| app.py:87 | `highest_education == 'HE Qualification'` | the example student with 'Higher Education Qualification' leaves `highest_education_Higher Education Qualification` false | compare with 'Higher Education Qualification' | high; not executed | `Encoding.ExampleEncoding` | `Encoding.IntendedEducationIndicator` |
| app.py:90 | `age_band == '55<='` | age band '>55' leaves `age_band_>55` false | compare with '>55' | high; not executed | `Encoding.AgeIndicators` | `Encoding.IntendedAgeOneHot` |
