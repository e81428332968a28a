# Student performance predictor: grading and column selection

A Streamlit page loads a regression model (predicting a final exam score) and a
classifier (predicting pass/fail), each stored together with the ordered list
of feature names it was trained on. Around those opaque models the page holds
three pieces of plain logic, and this project models and proves them:

- **Letter grading** (`Grading`): `grade(score)` tests the thresholds 90, 80,
  70 and 60 from the top down and returns `"A"`, `"B"`, `"C"`, `"D"` or `"F"`.
  The model returns a `Letter` datatype (`Grade`) and the displayed string
  (`GradeText`). Proved: each grade owns a half-open band of scores, the bands
  cover every integer, the grade is the best one the score earns, each
  threshold is exact, the boundary values, and monotonicity in the order
  F < D < C < B < A.
- **Parental-education column selection** (`FeatureColumns`): the list
  comprehension that keeps, in order, the regression feature names starting
  with `Parental_Education_Level_`. The feature list is an arbitrary
  `seq<string>`, since the real one comes from a model artifact. Proved:
  every kept name has the prefix, the result is an order-preserving
  subsequence of the input, every matching name is kept with its exact
  multiplicity, the filter distributes over concatenation, it is idempotent,
  and it keeps the whole list exactly when every name matches.
- **Validation-range table** (`ValidationRanges`): the constant dictionary
  giving `Study_Hours_per_Week`, `Attendance_Rate` and `Past_Exam_Scores` the
  bounds `(0, 100)`. Proved: its exact keys and values, and that no
  range-checked field is ever selected as a parental column.

## Model

| member | source | states |
|---|---|---|
| Grading.Grade | app.py:28-33 | A exactly for scores ≥ 90, B exactly for 80 ≤ s < 90, C for 70 ≤ s < 80, D for 60 ≤ s < 70, F exactly for s < 60: every integer score gets exactly one grade |
| Grading.GradeText | app.py:28-33 | the returned string is always one of "A", "B", "C", "D", "F", and is "A" exactly for scores ≥ 90, "B" exactly for 80 ≤ s < 90, "C" for 70 ≤ s < 80, "D" for 60 ≤ s < 70, "F" exactly for s < 60 |
| Grading.SymbolInjective | app.py:29-33 | the five returned strings are pairwise distinct, so the string identifies the grade |
| Grading.GradeIsBestEarned | app.py:28-33 | the grade of a score is the highest-ranked grade whose threshold the score reaches (reference definition of the if/elif chain) |
| Grading.GradeAtThresholds | app.py:29-32 | each threshold score gets its own grade and the score one below gets the next grade down |
| Grading.GradeBoundaries | app.py:29-33 | grade(100) = grade(90) = "A", grade(89) = grade(80) = "B", grade(79) = grade(70) = "C", grade(69) = grade(60) = "D", grade(59) = grade(0) = "F" |
| Grading.GradeMonotone | app.py:28-33 | if s1 ≤ s2 then grade(s2) is the same as or better than grade(s1) |
| FeatureColumns.ParentalCols | app.py:16 | the result is no longer than the input, every element starts with the prefix, every element comes from the input, and every input name with the prefix is in the result |
| FeatureColumns.ParentalColsIsSubsequence | app.py:16 | the selected names form an order-preserving subsequence of the feature list |
| FeatureColumns.ParentalColsAppend | app.py:16 | selecting from a + b gives the selection from a followed by the selection from b |
| FeatureColumns.ParentalColsCounts | app.py:16 | each name with the prefix occurs in the result as often as in the input; any other name never occurs |
| FeatureColumns.ParentalColsIdempotent | app.py:16 | selecting again from the selection changes nothing |
| FeatureColumns.ParentalColsKeepsAll | app.py:16 | the selection equals the whole feature list exactly when every name has the prefix |
| ValidationRanges.ValidRangesTable | app.py:19-23 | the table's keys are exactly the three numeric fields and each maps to (0, 100) |
| ValidationRanges.RangedFieldsAreNotParental | app.py:16-23 | no key of the range table is a parental column, for any feature list |

## Left out

- Loading the two models and their feature lists with `joblib.load` (app.py:9-13): file I/O and deserialised objects whose behaviour is not visible; the regression feature list is a parameter instead.
- The Streamlit page from app.py:38 on (page configuration, title, text and the input widgets): presentation only.
- Calls to the models' `predict` and `predict_proba` and the pandas data frame construction: library code outside this model.
- Grading.Grade: takes an unbounded integer score; the source compares whatever number it is given, possibly a float. The thresholds behave identically on integers, and floating point is not modelled.
- Assembling the feature vector and applying the range table to the inputs: not modelled; the table is modelled only as the constant it is, with no checking routine.
- ValidRanges: a Dafny `map` does not keep the insertion order of the keys that a Python dictionary keeps; nothing in the model depends on that order.
